/**
 The lookup loops of internal/resources/adapters/common_find.go: one request for the kinds with a
 flat list, a walk over pages of a hundred for the others.
 */
module Find {
  import opened Common
  import E = Errors
  import C = Conditions
  import P = Protocol

  /** A list entry as gjson reads it: a field that is missing reads as "". */
  datatype Listed = Listed(name: string, id: string)

  /** What a reply carries under data. A list that is absent reads as empty, a total that is absent as 0. */
  datatype Data = NoData | NotAList | Page(entries: seq<Listed>, total: int)

  datatype Reply = NoReply(err: E.Error) | Answered(status: int, data: Data)

  /** The reply to the request for each offset; no offset is asked for twice. */
  type Server = nat -> Reply

  const LIMIT: nat := 100

  const NO_ID := E.Base(E.Internal, "find: list entry carries no id", None)

  function Readable(reply: Reply): Result<Data, E.Error> {
    match reply
    case NoReply(err) => Err(err)
    case Answered(status, data) =>
      match E.NewFromHTTPResponse(status, "")
      case Some(err) => Err(err)
      case None =>
        if data.NoData? then Err(E.Base(E.Internal, "find: response carries no data", None))
        else if data.NotAList? then Err(E.Base(E.Internal, "find: could not parse list", None))
        else Ok(data)
  }

  /** The ids of the entries of that name, in order. */
  function Matching(entries: seq<Listed>, name: string): seq<string> {
    if entries == [] then []
    else (if entries[0].name == name then [entries[0].id] else []) + Matching(entries[1..], name)
  }

  /** Some id is empty. */
  predicate Lacks(ids: seq<string>) {
    exists i | 0 <= i < |ids| :: |ids[i]| == 0
  }

  lemma LacksOne(ids: seq<string>)
    ensures Lacks(ids) <==> "" in ids
  {
    if Lacks(ids) {
      var i :| 0 <= i < |ids| && |ids[i]| == 0;
      assert ids[i] == "";
    }
  }

  lemma LacksAppends(a: seq<string>, b: seq<string>)
    ensures Lacks(a + b) <==> Lacks(a) || Lacks(b)
  {
    if Lacks(a) {
      var i :| 0 <= i < |a| && |a[i]| == 0;
      assert (a + b)[i] == a[i];
    }
    if Lacks(b) {
      var i :| 0 <= i < |b| && |b[i]| == 0;
      assert (a + b)[|a| + i] == b[i];
    }
  }

  /** A list is looked up as its matching ids, unless one of them is empty. */
  function Outcome(ids: seq<string>): Result<seq<string>, E.Error> {
    if Lacks(ids) then Err(NO_ID) else Ok(ids)
  }

  lemma {:induction false} MatchingAppends(a: seq<Listed>, b: seq<Listed>, name: string)
    ensures Matching(a + b, name) == Matching(a, name) + Matching(b, name)
  {
    if a == [] {
      assert a + b == b;
    } else {
      assert (a + b)[1..] == a[1..] + b;
      MatchingAppends(a[1..], b, name);
    }
  }

  lemma {:induction false} MatchingMembers(entries: seq<Listed>, name: string, id: string)
    ensures id in Matching(entries, name) <==> Listed(name, id) in entries
  {
    if entries != [] {
      MatchingMembers(entries[1..], name, id);
      assert entries == [entries[0]] + entries[1..];
    }
  }

  lemma MatchingAt(entries: seq<Listed>, i: nat, name: string)
    requires i < |entries|
    ensures var here := if entries[i].name == name then [entries[i].id] else [];
            && Matching(entries[..i + 1], name) == Matching(entries[..i], name) + here
            && Matching(entries, name) == Matching(entries[..i + 1], name) + Matching(entries[i + 1..], name)
  {
    assert entries == entries[..i + 1] + entries[i + 1..];
    assert entries[..i + 1] == entries[..i] + [entries[i]];
    MatchingAppends(entries[..i], [entries[i]], name);
    MatchingAppends(entries[..i + 1], entries[i + 1..], name);
  }

  /** The loop over the entries of one reply, on top of the matches so far. */
  method AppendMatches(entries: seq<Listed>, name: string, matches: seq<string>)
      returns (found: Result<seq<string>, E.Error>)
    requires !Lacks(matches)
    ensures found == Outcome(matches + Matching(entries, name))
  {
    var ids := matches;
    for i := 0 to |entries|
      invariant ids == matches + Matching(entries[..i], name) && !Lacks(ids)
    {
      MatchingAt(entries, i, name);
      if entries[i].name == name {
        var id := entries[i].id;
        LacksAppends(ids, [id]);
        if id == "" {
          assert [id][0] == "";
          LacksAppends(ids + [id], Matching(entries[i + 1..], name));
          assert matches + Matching(entries, name) == ids + [id] + Matching(entries[i + 1..], name);
          return Err(NO_ID);
        }
        ids := ids + [id];
      }
    }
    assert entries[..|entries|] == entries;
    return Ok(ids);
  }

  /** A success that carries a list. */
  predicate IsPage(reply: Reply) {
    reply.Answered? && 200 <= reply.status < 300 && reply.data.Page?
  }

  predicate IsFailure(reply: Reply) {
    reply.Answered? && !(200 <= reply.status < 300)
  }

  /** A reply is readable exactly if it is such a success; any other fails as its kind asks. */
  lemma ReadableIffPage(reply: Reply)
    ensures Readable(reply) == if IsPage(reply) then Ok(reply.data) else Err(Readable(reply).error)
    ensures reply.NoReply? ==> Readable(reply) == Err(reply.err)
    ensures IsFailure(reply) ==>
              (C.VerdictOn(Readable(reply).error).0 == if reply.status in {400, 409} then C.Terminal else C.Recoverable)
  {
    if reply.Answered? {
      C.StatusVerdictIsTotal(reply.status, "");
    }
  }

  lemma LacksIffListed(entries: seq<Listed>, name: string)
    ensures Lacks(Matching(entries, name)) <==> Listed(name, "") in entries
  {
    LacksOne(Matching(entries, name));
    MatchingMembers(entries, name, "");
  }

  method FindByField(identity: Result<string, E.Error>, reply: Reply) returns (found: Result<seq<string>, E.Error>)
    ensures found.Ok? <==> identity.Ok? && IsPage(reply) && Listed(identity.value, "") !in reply.data.entries
    ensures found.Ok? ==> found.value == Matching(reply.data.entries, identity.value)
    ensures identity.Err? ==> found == Err(identity.error)
    ensures identity.Ok? && reply.NoReply? ==> found == Err(reply.err)
    ensures identity.Ok? && IsFailure(reply) ==>
              && found.Err?
              && (C.VerdictOn(found.error).0 == if reply.status in {400, 409} then C.Terminal else C.Recoverable)
    ensures found ==
            if identity.Err? then Err(identity.error)
            else if Readable(reply).Err? then Err(Readable(reply).error)
            else Outcome(Matching(Readable(reply).value.entries, identity.value))
  {
    if identity.Err? {
      return Err(identity.error);
    }
    ReadableIffPage(reply);
    var data := Readable(reply);
    if data.Err? {
      return Err(data.error);
    }
    LacksIffListed(data.value.entries, identity.value);
    found := AppendMatches(data.value.entries, identity.value, []);
    assert [] + Matching(data.value.entries, identity.value) == Matching(data.value.entries, identity.value);
  }

  function PageOf(server: Server, page: nat): Result<Data, E.Error> {
    Readable(server(page * LIMIT))
  }

  function EntriesOf(data: Result<Data, E.Error>): seq<Listed> {
    if data.Ok? && data.value.Page? then data.value.entries else []
  }

  /** This page ends the walk whatever its entries are: an error, an empty page, or the total is reached. */
  predicate Last(server: Server, page: nat) {
    var data := PageOf(server, page);
    data.Err? || |EntriesOf(data)| == 0 || page * LIMIT + |EntriesOf(data)| >= data.value.total
  }

  /** Everything the first pages hold, while they can be read. */
  function Gathered(server: Server, pages: nat): seq<Listed> {
    if pages == 0 then [] else Gathered(server, pages - 1) + EntriesOf(PageOf(server, pages - 1))
  }

  lemma OnePageMore(server: Server, page: nat, name: string)
    ensures Matching(Gathered(server, page + 1), name) ==
            Matching(Gathered(server, page), name) + Matching(EntriesOf(PageOf(server, page)), name)
  {
    MatchingAppends(Gathered(server, page), EntriesOf(PageOf(server, page)), name);
  }

  /** The walk does not go beyond this page: it is the last, or a match without an id has turned up. */
  predicate Ends(server: Server, name: string, page: nat) {
    Last(server, page) || Lacks(Matching(Gathered(server, page + 1), name))
  }

  predicate Reaches(server: Server, name: string, page: nat) {
    forall k: nat | k < page :: !Ends(server, name, k)
  }

  predicate StopsAt(server: Server, name: string, page: nat) {
    Reaches(server, name, page) && Ends(server, name, page)
  }

  /** One turn of the walk, from the matches of the pages before. */
  lemma OneTurn(server: Server, name: string, page: nat, matches: seq<string>)
    requires Reaches(server, name, page) && matches == Matching(Gathered(server, page), name)
    ensures var data := PageOf(server, page);
            var more := matches + Matching(EntriesOf(data), name);
            && more == Matching(Gathered(server, page + 1), name)
            && WalkResult(server, name, page) == (if data.Err? then Err(data.error) else Outcome(more))
            && (Ends(server, name, page) <==> Last(server, page) || Lacks(more))
            && (!Ends(server, name, page) ==> Reaches(server, name, page + 1))
  {
    OnePageMore(server, page, name);
  }

  /** What the walk returns when it stops at this page. */
  function WalkResult(server: Server, name: string, page: nat): Result<seq<string>, E.Error> {
    var data := PageOf(server, page);
    if data.Err? then Err(data.error) else Outcome(Matching(Gathered(server, page + 1), name))
  }

  /**
   The paged walk, watched for as many requests as the caller has patience for: None says that it is
   still going on then, which it may forever if no page ends it.
   */
  method FindByPage(identity: Result<string, E.Error>, server: Server, patience: nat)
    returns (found: Option<Result<seq<string>, E.Error>>, requests: nat)
    ensures identity.Err? ==> found == Some(Err(identity.error)) && requests == 0
    ensures identity.Ok? && found.Some? ==>
              && 0 < requests <= patience
              && StopsAt(server, identity.value, requests - 1) &&
                 found.value == WalkResult(server, identity.value, requests - 1)
    ensures identity.Ok? && found.None? ==> requests == patience && Reaches(server, identity.value, patience)
  {
    if identity.Err? {
      return Some(Err(identity.error)), 0;
    }
    var name := identity.value;
    var matches: seq<string> := [];
    var offset: nat := 0;
    requests := 0;
    while requests < patience
      invariant offset == requests * LIMIT && requests <= patience
      invariant matches == Matching(Gathered(server, requests), name) && !Lacks(matches)
      invariant Reaches(server, name, requests)
    {
      OneTurn(server, name, requests, matches);
      var data := Readable(server(offset));
      requests := requests + 1;
      if data.Err? {
        return Some(Err(data.error)), requests;
      }
      var page := data.value;
      var more := AppendMatches(page.entries, name, matches);
      if more.Err? {
        return Some(more), requests;
      }
      matches := more.value;
      if |page.entries| == 0 || offset + |page.entries| >= page.total {
        return Some(more), requests;
      }
      offset := offset + LIMIT;
    }
    return None, requests;
  }

  /** The walk comes to an end, within any patience beyond it, if and only if some page ends it. */
  lemma StopsIffSomePageEnds(server: Server, name: string, patience: nat)
    ensures (exists page: nat :: page < patience && StopsAt(server, name, page)) <==> !Reaches(server, name, patience)
  {
    if !Reaches(server, name, patience) {
      FirstEnd(server, name, patience);
    }
  }

  lemma {:induction false} FirstEnd(server: Server, name: string, pages: nat)
    requires !Reaches(server, name, pages)
    ensures exists page: nat :: page < pages && StopsAt(server, name, page)
  {
    if pages > 0 {
      if Reaches(server, name, pages - 1) {
        assert StopsAt(server, name, pages - 1);
      } else {
        FirstEnd(server, name, pages - 1);
      }
    }
  }

  /** A match on one of the first pages has no id. */
  predicate LacksWithin(server: Server, name: string, pages: nat) {
    Lacks(Matching(Gathered(server, pages), name))
  }

  lemma OnePageKeepsALack(server: Server, page: nat, name: string)
    requires LacksWithin(server, name, page)
    ensures LacksWithin(server, name, page + 1)
  {
    OnePageMore(server, page, name);
    LacksAppends(Matching(Gathered(server, page), name), Matching(EntriesOf(PageOf(server, page)), name));
  }

  lemma {:induction false} GatheredGrows(server: Server, pages: nat, more: nat, name: string)
    requires pages <= more && LacksWithin(server, name, pages)
    ensures LacksWithin(server, name, more)
    decreases more - pages
  {
    if pages < more {
      OnePageKeepsALack(server, pages, name);
      GatheredGrows(server, pages + 1, more, name);
    }
  }

  /******* What the replies decide *******/

  lemma {:induction false} GatheredMembers(server: Server, pages: nat, e: Listed)
    ensures e in Gathered(server, pages) <==> exists k: nat :: k < pages && e in EntriesOf(PageOf(server, k))
  {
    if pages > 0 {
      GatheredMembers(server, pages - 1, e);
    }
  }

  /** A page without a match that has no id. */
  predicate IsCleanPage(server: Server, name: string, page: nat) {
    IsPage(server(page * LIMIT)) && Listed(name, "") !in server(page * LIMIT).data.entries
  }

  predicate LacksAt(server: Server, name: string, page: nat) {
    Listed(name, "") in EntriesOf(PageOf(server, page))
  }

  lemma CleanIffRead(server: Server, name: string, page: nat)
    ensures IsCleanPage(server, name, page) <==> PageOf(server, page).Ok? && !LacksAt(server, name, page)
  {
    ReadableIffPage(server(page * LIMIT));
  }

  lemma LacksIffSomePage(server: Server, name: string, pages: nat)
    ensures Lacks(Matching(Gathered(server, pages), name)) <==> exists k: nat :: k < pages && LacksAt(server, name, k)
  {
    LacksIffListed(Gathered(server, pages), name);
    GatheredMembers(server, pages, Listed(name, ""));
    if k: nat :| k < pages && Listed(name, "") in EntriesOf(PageOf(server, k)) {
      assert LacksAt(server, name, k);
    }
  }

  lemma EarlierPagesAreRead(server: Server, name: string, page: nat, k: nat)
    requires StopsAt(server, name, page) && k < page
    ensures PageOf(server, k).Ok?
  {
    assert !Ends(server, name, k);
  }

  /**
   The walk is successful exactly if every reply up to its end is a success with a list, of which no
   match lacks an id.
   */
  lemma WalkIsOkIff(server: Server, name: string, page: nat)
    requires StopsAt(server, name, page)
    ensures WalkResult(server, name, page).Ok? <==> forall k: nat | k <= page :: IsCleanPage(server, name, k)
  {
    LacksIffSomePage(server, name, page + 1);
    forall k: nat | k <= page
      ensures IsCleanPage(server, name, k) <==> PageOf(server, k).Ok? && !LacksAt(server, name, k)
      ensures k < page ==> PageOf(server, k).Ok?
    {
      CleanIffRead(server, name, k);
      if k < page {
        EarlierPagesAreRead(server, name, page, k);
      }
    }
    assert IsCleanPage(server, name, page) ==> PageOf(server, page).Ok?;
  }

  /** A walk that a reply ends with a failure fails as that reply asks. */
  lemma WalkFailsAsItsReply(server: Server, name: string, page: nat)
    requires StopsAt(server, name, page)
    ensures var last := server(page * LIMIT);
            && (last.NoReply? ==> WalkResult(server, name, page) == Err(last.err))
            && (IsFailure(last) ==>
                  && WalkResult(server, name, page).Err?
                  && (C.VerdictOn(WalkResult(server, name, page).error).0 ==
                      if last.status in {400, 409} then C.Terminal else C.Recoverable))
  {
    ReadableIffPage(server(page * LIMIT));
  }

  /******* A list that holds still *******/

  function Min(a: int, b: int): int {
    if a < b then a else b
  }

  function Pages(n: int): nat {
    if n <= 0 then 0 else (n + LIMIT - 1) / LIMIT
  }

  /** The reply for an offset is a success with the next hundred of one list, and one total. */
  predicate ServesAt(server: Server, list: seq<Listed>, total: int, offset: nat) {
    && IsPage(server(offset))
    && server(offset).data == Page(list[Min(offset, |list|)..Min(offset + 100, |list|)], total)
  }

  ghost predicate Serves(server: Server, list: seq<Listed>, total: int) {
    forall offset: nat :: ServesAt(server, list, total, offset)
  }

  lemma ServedPage(server: Server, list: seq<Listed>, total: int, page: nat)
    requires Serves(server, list, total)
    ensures PageOf(server, page) ==
            Ok(Page(list[Min(page * LIMIT, |list|)..Min(page * LIMIT + LIMIT, |list|)], total))
  {
    assert ServesAt(server, list, total, page * LIMIT);
    ReadableIffPage(server(page * LIMIT));
  }

  /** How many requests a walk makes that meets no match without an id. */
  function Requests(length: nat, total: int): nat {
    if total > length then Pages(length) + 1
    else if total <= 0 then 1
    else Pages(total)
  }

  /** How much of the list those requests see. */
  function Seen(length: nat, total: int): nat {
    Min(length, Requests(length, total) * LIMIT)
  }

  lemma {:induction false} GatheredIsAPrefix(server: Server, list: seq<Listed>, total: int, pages: nat)
    requires Serves(server, list, total)
    ensures Gathered(server, pages) == list[..Min(|list|, pages * LIMIT)]
  {
    if pages > 0 {
      GatheredIsAPrefix(server, list, total, pages - 1);
      ServedPage(server, list, total, pages - 1);
    }
  }

  lemma LastIffCounted(server: Server, list: seq<Listed>, total: int, page: nat)
    requires Serves(server, list, total)
    ensures Last(server, page) <==> page + 1 >= Requests(|list|, total)
  {
    ServedPage(server, list, total, page);
  }

  lemma StopsInTime(server: Server, list: seq<Listed>, total: int, name: string, page: nat)
    requires Serves(server, list, total) && StopsAt(server, name, page)
    ensures page + 1 <= Requests(|list|, total)
    ensures page + 1 == Requests(|list|, total) || Lacks(Matching(Gathered(server, page + 1), name))
  {
    LastIffCounted(server, list, total, page);
    LastIffCounted(server, list, total, Requests(|list|, total) - 1);
    assert Ends(server, name, Requests(|list|, total) - 1);
  }

  /** Over a list that holds still the walk ends, however much total overcounts. */
  lemma StableWalksEnd(server: Server, list: seq<Listed>, total: int, name: string)
    requires Serves(server, list, total)
    ensures exists page: nat :: page < Requests(|list|, total) && StopsAt(server, name, page)
  {
    var last := Requests(|list|, total) - 1;
    LastIffCounted(server, list, total, last);
    assert Ends(server, name, last) && !Reaches(server, name, last + 1);
    FirstEnd(server, name, last + 1);
  }

  /**
   Over a list that holds still the walk returns the matching ids of what it saw, in order, or an
   error exactly when one of those matches has no id.
   */
  lemma StableWalk(server: Server, list: seq<Listed>, total: int, name: string, page: nat)
    requires Serves(server, list, total) && StopsAt(server, name, page)
    ensures WalkResult(server, name, page) == Outcome(Matching(list[..Seen(|list|, total)], name))
    ensures page + 1 <= Requests(|list|, total)
    ensures WalkResult(server, name, page).Ok? ==> page + 1 == Requests(|list|, total)
  {
    var n: nat := Requests(|list|, total);
    StopsInTime(server, list, total, name, page);
    ServedPage(server, list, total, page);
    GatheredIsAPrefix(server, list, total, n);
    if Lacks(Matching(Gathered(server, page + 1), name)) {
      GatheredGrows(server, page + 1, n, name);
    }
  }

  lemma HidesNoneIff(list: seq<Listed>, seen: nat, name: string)
    requires seen <= |list|
    ensures Matching(list, name) == Matching(list[..seen], name) + Matching(list[seen..], name)
    ensures Matching(list[seen..], name) == [] <==> forall i | seen <= i < |list| :: list[i].name != name
  {
    var rest := list[seen..];
    assert list == list[..seen] + rest;
    MatchingAppends(list[..seen], rest, name);
    MatchesNoneIff(rest, name);
    assert forall i | seen <= i < |list| :: rest[i - seen] == list[i];
    assert forall i | 0 <= i < |rest| :: rest[i] == list[seen + i];
  }

  /** Complete exactly when the total does not hide a match. */
  lemma CompleteIffNothingHidden(server: Server, list: seq<Listed>, total: int, name: string, page: nat)
    requires Serves(server, list, total) && StopsAt(server, name, page)
    ensures WalkResult(server, name, page) == Ok(Matching(list, name)) <==>
            !Lacks(Matching(list, name)) && forall i | Seen(|list|, total) <= i < |list| :: list[i].name != name
  {
    var seen: nat := Seen(|list|, total);
    StableWalk(server, list, total, name, page);
    HidesNoneIff(list, seen, name);
    OutcomeIsAllIff(Matching(list[..seen], name), Matching(list[seen..], name));
  }

  lemma OutcomeIsAllIff(seen: seq<string>, hidden: seq<string>)
    ensures Outcome(seen) == Ok(seen + hidden) <==> "" !in seen + hidden && hidden == []
  {
    LacksOne(seen + hidden);
    if hidden == [] {
      assert seen + hidden == seen;
    }
  }

  /** A total that does not undercount hides nothing, and one that is exact costs no extra request. */
  lemma HonestTotals(length: nat, total: int)
    requires total >= length
    ensures Seen(length, total) == length && Requests(length, total) <= (length + 99) / 100 + 1
    ensures total == length ==> Requests(length, total) == if length == 0 then 1 else (length + 99) / 100
  {
  }

  lemma {:induction false} MatchesNoneIff(entries: seq<Listed>, name: string)
    ensures Matching(entries, name) == [] <==> forall i | 0 <= i < |entries| :: entries[i].name != name
  {
    if entries != [] {
      MatchesNoneIff(entries[1..], name);
      assert forall i | 0 < i < |entries| :: entries[i] == entries[1..][i - 1];
    }
  }

  /******* What a lookup is to the reconciler *******/

  /** The list enumerates the live objects, each once. */
  predicate Enumerates(list: seq<Listed>, remote: P.Remote) {
    && (forall i, j | 0 <= i < j < |list| :: list[i].id != list[j].id)
    && (forall e | e in list :: e.id in remote.live && remote.live[e.id].name == e.name)
    && (forall id | id in remote.live :: Listed(remote.live[id].name, id) in list)
  }

  lemma {:induction false} MatchingIsDistinct(list: seq<Listed>, name: string)
    requires forall i, j | 0 <= i < j < |list| :: list[i].id != list[j].id
    ensures NoRepeats(Matching(list, name))
  {
    if list != [] {
      MatchingIsDistinct(list[1..], name);
      MatchingMembers(list[1..], name, list[0].id);
    }
  }

  /** Paging through an unchanging enumeration of SigNoz is what the reconciler's lookups are assumed to be. */
  lemma WalkListsAll(server: Server, list: seq<Listed>, total: int, name: string, page: nat, remote: P.Remote)
    requires Serves(server, list, total) && StopsAt(server, name, page) && total >= |list|
    requires Enumerates(list, remote) && "" !in remote.live
    ensures WalkResult(server, name, page).Ok? && P.ListsAll(remote, name, WalkResult(server, name, page).value)
  {
    MatchingMembers(list, name, "");
    CompleteIffNothingHidden(server, list, total, name, page);
    HonestTotals(|list|, total);
    MatchingIsDistinct(list, name);
    forall id ensures id in Matching(list, name) <==> id in remote.live && remote.live[id].name == name {
      MatchingMembers(list, name, id);
    }
  }

  /******* Recorded ids *******/

  /** A SigNozResource of the API types, behind its pointer. */
  datatype Metadata = Metadata(id: Option<string>)

  function GetId(m: Option<Metadata>): Result<string, E.Error> {
    if m.None? || m.value.id.None? || m.value.id.value == "" then Err(E.Plain("signozResource carries no id"))
    else Ok(m.value.id.value)
  }

  /** The usable ids, in order. */
  function Ids(metadatas: seq<Option<Metadata>>): seq<string> {
    if metadatas == [] then []
    else (if GetId(metadatas[0]).Ok? then [GetId(metadatas[0]).value] else []) + Ids(metadatas[1..])
  }

  /** The ids handed on are those of the entries, none of them empty; in order, unless some entry has none. */
  lemma {:induction false} IdsDropOnlyTheEmpty(metadatas: seq<Option<Metadata>>, id: string)
    ensures id in Ids(metadatas) <==> id != "" && Some(Metadata(Some(id))) in metadatas
    ensures |Ids(metadatas)| == |metadatas| <==>
            forall m | m in metadatas :: m.Some? && m.value.id.Some? && m.value.id.value != ""
    ensures |Ids(metadatas)| <= |metadatas|
    ensures |Ids(metadatas)| == |metadatas| ==>
              forall i | 0 <= i < |metadatas| :: metadatas[i] == Some(Metadata(Some(Ids(metadatas)[i])))
  {
    if metadatas != [] {
      IdsDropOnlyTheEmpty(metadatas[1..], id);
      assert metadatas == [metadatas[0]] + metadatas[1..];
    }
  }

  lemma {:induction false} IdsAppend(a: seq<Option<Metadata>>, m: Option<Metadata>)
    ensures Ids(a + [m]) == Ids(a) + if GetId(m).Ok? then [GetId(m).value] else []
  {
    if a == [] {
      assert a + [m] == [m] && [m][1..] == [];
    } else {
      assert (a + [m])[1..] == a[1..] + [m];
      IdsAppend(a[1..], m);
    }
  }

  method GetIds(metadatas: seq<Option<Metadata>>) returns (ids: seq<string>)
    ensures ids == Ids(metadatas)
  {
    ids := [];
    for i := 0 to |metadatas|
      invariant ids == Ids(metadatas[..i])
    {
      assert metadatas[..i + 1] == metadatas[..i] + [metadatas[i]];
      IdsAppend(metadatas[..i], metadatas[i]);
      var id := GetId(metadatas[i]);
      if id.Ok? {
        ids := ids + [id.value];
      }
    }
    assert metadatas[..|metadatas|] == metadatas;
  }
}
