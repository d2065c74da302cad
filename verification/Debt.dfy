/** The debt register of emctl/repo/debt.py: a merge resolves every duplicate and adds
    their number to the keeper's recurrence, all or nothing. */
module Debt {
  import opened Prelude
  import opened Text

  datatype Status = Open | Proposed | Resolved | Stale | Escalated

  datatype Item = Item(
    project: Option<int>, location: string, evidence: string, filedBy: Option<string>,
    recurrence: int, status: Status, resolvedRef: Option<string>)

  datatype State = State(items: map<int, Item>, itemSeq: int)

  datatype Op =
    | Add(project: Option<int>, location: string, evidence: string, filedBy: Option<string>)
    | Resolve(id: int, ref: string)
    | Merge(keeper: int, dups: seq<int>)

  datatype Timed = Timed(projects: set<int>, op: Op)

  type Reply = Result<int>
  datatype Outcome = Outcome(state: State, reply: Reply)

  const MAX_INTEGER := 0x7fff_ffff  // the recurrence column is a 32-bit INTEGER

  function Pointer(keeper: int): string {
    "merged into #" + Decimal(keeper)
  }

  // ----- what each command does

  function AddItem(s: State, projects: set<int>, op: Op): Outcome
    requires op.Add?
  {
    var id := s.itemSeq + 1;
    if op.project.Some? && op.project.value !in projects
    then Outcome(s.(itemSeq := id), Err(Conflict))
    else Outcome(State(s.items[id := Item(op.project, op.location, op.evidence, op.filedBy, 1, Open, None)], id),
                 Ok(id))
  }

  function ResolveItem(s: State, id: int, ref: string): Outcome {
    if id !in s.items then Outcome(s, Err(NotFound("debt item", id)))
    else Outcome(s.(items := s.items[id := s.items[id].(status := Resolved, resolvedRef := Some(ref))]), Ok(id))
  }

  // How many leading duplicates are acceptable.
  function Mergeable(known: set<int>, keeper: int, dups: seq<int>): (k: nat)
    ensures k <= |dups| && forall j | 0 <= j < k :: dups[j] in known && dups[j] != keeper
    ensures k < |dups| ==> dups[k] == keeper || dups[k] !in known
  {
    if dups == [] || dups[0] == keeper || dups[0] !in known then 0
    else
      var rest := Mergeable(known, keeper, dups[1..]);
      assert forall j | 0 < j < rest + 1 :: dups[j] == dups[1..][j - 1];
      rest + 1
  }

  function Merged(items: map<int, Item>, keeper: int, dups: seq<int>): map<int, Item> {
    map id | id in items ::
      if id == keeper then items[id].(recurrence := items[id].recurrence + |dups|)
      else if id in dups then items[id].(status := Resolved, resolvedRef := Some(Pointer(keeper)))
      else items[id]
  }

  function MergeItems(s: State, keeper: int, dups: seq<int>): Outcome {
    if dups == [] then Outcome(s, Err(Validation("merge needs at least one duplicate id")))
    else if keeper !in s.items then Outcome(s, Err(NotFound("debt item", keeper)))
    else
      var k := Mergeable(s.items.Keys, keeper, dups);
      if k < |dups| then
        Outcome(s, Err(if dups[k] == keeper then Validation("cannot merge a debt item into itself")
                       else NotFound("debt item", dups[k])))
      else if s.items[keeper].recurrence + |dups| > MAX_INTEGER then Outcome(s, Err(Database))
      else Outcome(s.(items := Merged(s.items, keeper, dups)), Ok(keeper))
  }

  function Step(s: State, t: Timed): Outcome {
    match t.op
    case Add(_, _, _, _) => AddItem(s, t.projects, t.op)
    case Resolve(id, ref) => ResolveItem(s, id, ref)
    case Merge(keeper, dups) => MergeItems(s, keeper, dups)
  }

  function Run(s: State, ops: seq<Timed>): State
    decreases |ops|
  {
    if ops == [] then s else Run(Step(s, ops[0]).state, ops[1..])
  }

  // ----- all or nothing

  /** Exactly when a merge succeeds: there is a duplicate, the keeper exists, every
      duplicate exists and is another item, and the counter has room. On any error
      no item changes; the error is that of the first check that fails, and for the
      duplicates that of the first offending id. */
  lemma MergeExact(s: State, keeper: int, dups: seq<int>)
    ensures var o := MergeItems(s, keeper, dups);
            && (o.reply.Ok? <==>
                  && dups != [] && keeper in s.items
                  && (forall d | d in dups :: d in s.items && d != keeper)
                  && s.items[keeper].recurrence + |dups| <= MAX_INTEGER)
            && (o.reply.Err? ==> o.state == s)
            && (dups == [] ==> o.reply == Err(Validation("merge needs at least one duplicate id")))
            && (dups != [] && keeper !in s.items ==> o.reply == Err(NotFound("debt item", keeper)))
            && (dups != [] && keeper in s.items && (exists d | d in dups :: d !in s.items || d == keeper) ==>
                  exists k | 0 <= k < |dups| ::
                    && (dups[k] == keeper || dups[k] !in s.items)
                    && (forall j | 0 <= j < k :: dups[j] in s.items && dups[j] != keeper)
                    && o.reply == Err(if dups[k] == keeper then Validation("cannot merge a debt item into itself")
                                      else NotFound("debt item", dups[k])))
            && (dups != [] && keeper in s.items && (forall d | d in dups :: d in s.items && d != keeper) ==>
                  s.items[keeper].recurrence + |dups| > MAX_INTEGER ==> o.reply == Err(Database))
  {
    hide Merged;
    if dups != [] && keeper in s.items {
      var k := Mergeable(s.items.Keys, keeper, dups);
      if k < |dups| {
        assert dups[k] in dups;
      } else {
        assert forall d | d in dups :: d in s.items && d != keeper;
      }
    }
  }

  /** What a merge leaves: every duplicate resolved with a pointer to the keeper, the
      keeper bumped by their number and otherwise as it was, all other items alone. */
  lemma MergeResolves(s: State, keeper: int, dups: seq<int>, id: int)
    requires MergeItems(s, keeper, dups).reply.Ok? && id in s.items
    ensures var (was, after) := (s.items[id], MergeItems(s, keeper, dups).state.items);
            && after.Keys == s.items.Keys
            && (id in dups ==>
                  after[id] == was.(status := Resolved, resolvedRef := Some("merged into #" + Decimal(keeper))))
            && (id == keeper ==> after[id] == was.(recurrence := was.recurrence + |dups|))
            && (id !in dups && id != keeper ==> after[id] == was)
  {
    MergeExact(s, keeper, dups);
  }

  /** Filing draws the next id and stores what was given, open, with recurrence one; an
      unknown project is a conflict. */
  lemma AddExact(s: State, known: set<int>, project: Option<int>, location: string, evidence: string,
                 filedBy: Option<string>)
    ensures var o := Step(s, Timed(known, Add(project, location, evidence, filedBy)));
            var id := s.itemSeq + 1;
            if project.Some? && project.value !in known then o == Outcome(State(s.items, id), Err(Conflict))
            else
              var item := Item(project, location, evidence, filedBy, 1, Open, None);
              o == Outcome(State(s.items[id := item], id), Ok(id))
  {
  }

  /** Resolving stores the reference and nothing else, or is not-found. */
  lemma ResolveExact(s: State, known: set<int>, id: int, ref: string)
    ensures var o := Step(s, Timed(known, Resolve(id, ref)));
            if id !in s.items then o == Outcome(s, Err(NotFound("debt item", id)))
            else
              var row := s.items[id].(status := Resolved, resolvedRef := Some(ref));
              o == Outcome(State(s.items[id := row], s.itemSeq), Ok(id))
  {
  }

  /** No command reopens a resolved item. */
  lemma {:induction false} ResolvedForGood(s: State, ops: seq<Timed>, id: int)
    requires Sequenced(s) && id in s.items && s.items[id].status == Resolved && s.items[id].resolvedRef.Some?
    ensures var after := Run(s, ops).items;
            id in after && after[id].status == Resolved && after[id].resolvedRef.Some?
    decreases |ops|
  {
    if ops != [] {
      StepAccounts(s, ops[0]);
      StepKeepsResolved(s, ops[0], id);
      hide Step;
      ResolvedForGood(Step(s, ops[0]).state, ops[1..], id);
    }
  }

  lemma StepKeepsResolved(s: State, t: Timed, id: int)
    requires Sequenced(s) && id in s.items && s.items[id].status == Resolved && s.items[id].resolvedRef.Some?
    ensures var after := Step(s, t).state.items;
            id in after && after[id].status == Resolved && after[id].resolvedRef.Some?
  {
  }

  // ----- recurrence is conserved

  function Total(items: map<int, Item>): (sum: int)
    ensures items == map[] ==> sum == 0
    decreases |items|
  {
    if items == map[] then 0
    else
      var id := Least(items.Keys);
      assert (items - {id}).Keys == items.Keys - {id};
      items[id].recurrence + Total(items - {id})
  }

  // Any fixed way of choosing the next row to add up.
  function Least(ids: set<int>): (m: int)
    requires ids != {}
    ensures m in ids
  {
    LeastExists(ids);
    var m :| m in ids && forall i | i in ids :: m <= i;
    m
  }

  lemma {:induction false} LeastExists(ids: set<int>)
    requires ids != {}
    ensures exists m :: m in ids && forall i | i in ids :: m <= i
  {
    assert (forall y :: y !in ids) ==> ids == {};
    var x :| x in ids;
    var rest := ids - {x};
    if rest == {} {
      assert forall i | i in ids && i != x :: i in rest;
      assert x in ids && forall i | i in ids :: x <= i;
    } else {
      LeastExists(rest);
      var r :| r in rest && forall i | i in rest :: r <= i;
      var m := if x < r then x else r;
      assert m in ids && forall i | i in ids :: m <= i by {
        assert forall i | i in ids :: i == x || i in rest;
      }
    }
  }

  // The sum may start with any row.
  lemma {:induction false} TotalPick(items: map<int, Item>, id: int)
    requires id in items
    ensures Total(items) == items[id].recurrence + Total(items - {id})
    decreases |items|
  {
    var m := Least(items.Keys);
    assert (items - {m}).Keys == items.Keys - {m};
    if id != m {
      assert (items - {id}).Keys == items.Keys - {id};
      TotalPick(items - {m}, id);
      TotalPick(items - {id}, m);
      assert items - {m} - {id} == items - {id} - {m};
    }
  }

  lemma TotalWrite(items: map<int, Item>, id: int, row: Item)
    ensures Total(items[id := row]) ==
            Total(items) + row.recurrence - if id in items then items[id].recurrence else 0
  {
    var after := items[id := row];
    TotalPick(after, id);
    assert after - {id} == items - {id};
    if id in items {
      TotalPick(items, id);
    } else {
      assert items - {id} == items;
    }
  }

  // Rows whose recurrences agree add up alike.
  lemma {:induction false} TotalAgree(a: map<int, Item>, b: map<int, Item>)
    requires a.Keys == b.Keys && forall id | id in a :: a[id].recurrence == b[id].recurrence
    ensures Total(a) == Total(b)
    decreases |a|
  {
    if a != map[] {
      var id := Least(a.Keys);
      assert (a - {id}).Keys == a.Keys - {id} == (b - {id}).Keys;
      assert b != map[] by { assert id in b; }
      TotalAgree(a - {id}, b - {id});
    } else {
      assert b == map[];
    }
  }

  lemma TotalMerged(items: map<int, Item>, keeper: int, dups: seq<int>)
    requires keeper in items && keeper !in dups
    ensures Total(Merged(items, keeper, dups)) == Total(items) + |dups|
  {
    var bumped := items[keeper := items[keeper].(recurrence := items[keeper].recurrence + |dups|)];
    TotalWrite(items, keeper, bumped[keeper]);
    TotalAgree(Merged(items, keeper, dups), bumped);
  }

  // ----- what a run of commands accounts for

  // The rows a run adds, and the duplicates its successful merges name.
  function Filed(s: State, ops: seq<Timed>): nat
    decreases |ops|
  {
    if ops == [] then 0
    else (if ops[0].op.Add? && Step(s, ops[0]).reply.Ok? then 1 else 0)
         + Filed(Step(s, ops[0]).state, ops[1..])
  }

  function MergedInto(s: State, ops: seq<Timed>, id: int): nat
    decreases |ops|
  {
    if ops == [] then 0
    else (if ops[0].op.Merge? && ops[0].op.keeper == id && Step(s, ops[0]).reply.Ok? then |ops[0].op.dups| else 0)
         + MergedInto(Step(s, ops[0]).state, ops[1..], id)
  }

  function MergedInAll(s: State, ops: seq<Timed>): nat
    decreases |ops|
  {
    if ops == [] then 0
    else (if ops[0].op.Merge? && Step(s, ops[0]).reply.Ok? then |ops[0].op.dups| else 0)
         + MergedInAll(Step(s, ops[0]).state, ops[1..])
  }

  ghost predicate Sequenced(s: State) {
    forall id | id in s.items :: id <= s.itemSeq
  }

  lemma StepAccounts(s: State, t: Timed)
    requires Sequenced(s)
    ensures var o := Step(s, t);
            && Sequenced(o.state)
            && |o.state.items| == |s.items| + (if t.op.Add? && o.reply.Ok? then 1 else 0)
            && Total(o.state.items) == Total(s.items)
               + (if t.op.Add? && o.reply.Ok? then 1 else 0)
               + (if t.op.Merge? && o.reply.Ok? then |t.op.dups| else 0)
            && forall id | id in o.state.items ::
                 o.state.items[id].recurrence ==
                 (if id in s.items then s.items[id].recurrence else 1)
                 + (if t.op.Merge? && t.op.keeper == id && o.reply.Ok? then |t.op.dups| else 0)
  {
    hide Total;
    match t.op
    case Add(project, location, evidence, filedBy) =>
      TotalWrite(s.items, s.itemSeq + 1, Item(project, location, evidence, filedBy, 1, Open, None));
      assert s.items[s.itemSeq + 1 := Item(project, location, evidence, filedBy, 1, Open, None)].Keys
             == s.items.Keys + {s.itemSeq + 1};
    case Resolve(id, ref) =>
      if id in s.items {
        TotalWrite(s.items, id, s.items[id].(status := Resolved, resolvedRef := Some(ref)));
        assert Step(s, t).state.items.Keys == s.items.Keys;
      }
    case Merge(keeper, dups) =>
      MergeExact(s, keeper, dups);
      if Step(s, t).reply.Ok? {
        TotalMerged(s.items, keeper, dups);
        assert Step(s, t).state.items.Keys == s.items.Keys;
      }
  }

  /** Conservation over whole runs: the recurrences grow by one for every row filed
      and by the number of duplicates of every successful merge, and by nothing else;
      each item's own recurrence is what it had (one, when the run filed it) plus
      what was merged into it. */
  lemma {:induction false} RecurrenceIsConserved(s: State, ops: seq<Timed>)
    requires Sequenced(s)
    ensures var after := Run(s, ops);
            && |after.items| == |s.items| + Filed(s, ops)
            && Total(after.items) == Total(s.items) + Filed(s, ops) + MergedInAll(s, ops)
            && forall id | id in after.items ::
                 after.items[id].recurrence ==
                 (if id in s.items then s.items[id].recurrence else 1) + MergedInto(s, ops, id)
    decreases |ops|
  {
    if ops != [] {
      StepAccounts(s, ops[0]);
      hide Step, Total;
      RecurrenceIsConserved(Step(s, ops[0]).state, ops[1..]);
    }
  }

  // ----- the repository

  // The rows after the first k UPDATEs of a merge.
  function Resolving(items: map<int, Item>, keeper: int, dups: seq<int>): map<int, Item> {
    map id | id in items ::
      if id in dups then items[id].(status := Resolved, resolvedRef := Some(Pointer(keeper))) else items[id]
  }

  lemma ResolvingOneMore(items: map<int, Item>, keeper: int, dups: seq<int>, id: int)
    requires id in items
    ensures Resolving(items, keeper, dups + [id]) ==
            Resolving(items, keeper, dups)[id :=
              items[id].(status := Resolved, resolvedRef := Some(Pointer(keeper)))]
  {
    assert forall x :: x in dups + [id] <==> x in dups || x == id;
  }

  class Store {
    var items: map<int, Item>
    var itemSeq: int

    constructor (s: State)
      ensures View() == s
    {
      items, itemSeq := s.items, s.itemSeq;
    }

    function View(): State reads this { State(items, itemSeq) }

    method ResolveRow(id: int, ref: string) returns (r: Reply)
      modifies this`items
      ensures r == ResolveItem(old(View()), id, ref).reply
      ensures View() == ResolveItem(old(View()), id, ref).state
    {
      if id !in items { return Err(NotFound("debt item", id)); }
      items := items[id := items[id].(status := Resolved, resolvedRef := Some(ref))];
      r := Ok(id);
    }

    // Row by row; what is left behind on an error is for the transaction to undo.
    method MergeRows(keeper: int, dups: seq<int>) returns (r: Reply)
      modifies this`items
      ensures r == MergeItems(old(View()), keeper, dups).reply
      ensures r.Ok? ==> View() == MergeItems(old(View()), keeper, dups).state
    {
      if dups == [] { return Err(Validation("merge needs at least one duplicate id")); }
      if keeper !in items { return Err(NotFound("debt item", keeper)); }
      var pointer := Pointer(keeper);
      for i := 0 to |dups|
        invariant forall j | 0 <= j < i :: dups[j] in old(items) && dups[j] != keeper
        invariant items == Resolving(old(items), keeper, dups[..i])
      {
        if dups[i] == keeper { return Err(Validation("cannot merge a debt item into itself")); }
        if dups[i] in items { ResolvingOneMore(old(items), keeper, dups[..i], dups[i]); }
        assert dups[..i + 1] == dups[..i] + [dups[i]];
        var resolved := ResolveRow(dups[i], pointer);
        if resolved.Err? { return resolved; }
      }
      assert dups[..|dups|] == dups;
      assert keeper !in dups;
      var bumped := items[keeper].recurrence + |dups|;
      if bumped > MAX_INTEGER { return Err(Database); }
      items := items[keeper := items[keeper].(recurrence := bumped)];
      assert items == Merged(old(items), keeper, dups);
      r := Ok(keeper);
    }

    // One command, one transaction: commit, or put the rows back.
    method Execute(t: Timed) returns (r: Reply)
      modifies this
      ensures View() == Step(old(View()), t).state
      ensures r == Step(old(View()), t).reply
      ensures r.Err? ==> items == old(items)
    {
      var committed := items;
      match t.op {
        case Add(project, location, evidence, filedBy) =>
          itemSeq := itemSeq + 1;
          if project.Some? && project.value !in t.projects { return Err(Conflict); }
          items := items[itemSeq := Item(project, location, evidence, filedBy, 1, Open, None)];
          r := Ok(itemSeq);
        case Resolve(id, ref) =>
          r := ResolveRow(id, ref);
        case Merge(keeper, dups) =>
          MergeExact(View(), keeper, dups);
          r := MergeRows(keeper, dups);
      }
      if r.Err? { items := committed; }
    }
  }
}
