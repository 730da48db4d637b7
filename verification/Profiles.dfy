// Scanner profiles: from the order numbers on the administrator's form to the
// scanner whose answer decides (api/panel/admin_profiles.py, api/db.py).
module Profiles {
  import opened Wrappers
  import opened Policy
  import opened ScanPlaybook

  // ---------------------------------------------------------------------------
  // sorted(ids, key=...): a stable sort, told by the positions it picks
  // ---------------------------------------------------------------------------

  // Position p sorts before position q: a smaller number, or the same number
  // and earlier on the form.
  predicate Before(keys: seq<int>, p: int, q: int)
    requires 0 <= p < |keys| && 0 <= q < |keys|
  {
    keys[p] < keys[q] || (keys[p] == keys[q] && p < q)
  }

  predicate Positions(keys: seq<int>, order: seq<nat>) {
    forall i :: 0 <= i < |order| ==> order[i] < |keys|
  }

  function InsertLast(keys: seq<int>, order: seq<nat>, p: nat): seq<nat>
    requires p < |keys| && Positions(keys, order)
  {
    if order == [] then [p]
    else if keys[order[0]] <= keys[p] then [order[0]] + InsertLast(keys, order[1..], p)
    else [p] + order
  }

  ghost predicate Ordered(keys: seq<int>, order: seq<nat>) {
    Positions(keys, order) && forall i, j :: 0 <= i < j < |order| ==> Before(keys, order[i], order[j])
  }

  function StableOrder(keys: seq<int>, n: nat): (order: seq<nat>)
    requires n <= |keys|
    ensures Ordered(keys, order) && |order| == n
    ensures forall p :: p in order <==> 0 <= p < n
    ensures forall i, j :: 0 <= i < j < |order| ==>
      keys[order[i]] < keys[order[j]] || (keys[order[i]] == keys[order[j]] && order[i] < order[j])
  {
    if n == 0 then []
    else
      InsertLastKeeps(keys, StableOrder(keys, n - 1), n - 1);
      InsertLast(keys, StableOrder(keys, n - 1), n - 1)
  }

  lemma {:induction false} InsertLastKeeps(keys: seq<int>, order: seq<nat>, p: nat)
    requires p < |keys| && Ordered(keys, order) && forall q :: q in order ==> q < p
    ensures var r := InsertLast(keys, order, p);
      && Ordered(keys, r) && |r| == |order| + 1
      && forall q :: q in r <==> q in order || q == p
  {
    if order == [] {
    } else {
      var head, rest := order[0], order[1..];
      HeadAndRest(keys, order);
      assert head in order;
      if keys[head] <= keys[p] {
        InsertLastKeeps(keys, rest, p);
        PrependOrdered(keys, head, InsertLast(keys, rest, p));
      } else {
        PrependOrdered(keys, p, order);
      }
    }
  }

  lemma HeadAndRest(keys: seq<int>, order: seq<nat>)
    requires Ordered(keys, order) && order != []
    ensures Ordered(keys, order[1..])
    ensures forall q :: q in order <==> q == order[0] || q in order[1..]
    ensures forall q :: q in order[1..] ==> Before(keys, order[0], q)
  {
    assert order == [order[0]] + order[1..];
    assert forall i :: 0 <= i < |order[1..]| ==> order[1..][i] == order[i + 1];
  }

  lemma PrependOrdered(keys: seq<int>, head: nat, rest: seq<nat>)
    requires head < |keys| && Ordered(keys, rest) && forall q :: q in rest ==> Before(keys, head, q)
    ensures Ordered(keys, [head] + rest) && |[head] + rest| == |rest| + 1
    ensures forall q :: q in [head] + rest <==> q == head || q in rest
  {
    var r := [head] + rest;
    forall i, j | 0 <= i < j < |r| ensures Before(keys, r[i], r[j]) {
      assert r[j] == rest[j - 1];
      if i > 0 { assert r[i] == rest[i - 1]; }
    }
  }

  function Picked(ids: seq<nat>, order: seq<nat>): (r: seq<nat>)
    requires forall i :: 0 <= i < |order| ==> order[i] < |ids|
    ensures |r| == |order| && forall i :: 0 <= i < |order| ==> r[i] == ids[order[i]]
  {
    seq(|order|, i requires 0 <= i < |order| => ids[order[i]])
  }

  // A number from the form, with 0 for what does not read as one.
  function Keys(ids: seq<nat>, parsed: nat -> Option<int>): (r: seq<int>)
    ensures |r| == |ids| && forall i :: 0 <= i < |ids| ==> r[i] == parsed(ids[i]).GetOr(0)
  {
    seq(|ids|, i requires 0 <= i < |ids| => parsed(ids[i]).GetOr(0))
  }

  // `parsed` holds the numbers in the order fields, by id; an absent field reads as 0.
  method OrderedScannerIds(ids: seq<nat>, parsed: nat -> Option<int>) returns (sorted: seq<nat>)
    ensures sorted == Picked(ids, StableOrder(Keys(ids, parsed), |ids|))
    ensures forall i :: 0 <= i < |ids| ==>
      Keys(ids, parsed)[i] == match parsed(ids[i]) case Some(number) => number case None => 0
  {
    var orders: map<nat, int> := map[];
    for i := 0 to |ids|
      invariant orders.Keys == set k | 0 <= k < i :: ids[k]
      invariant forall id :: id in orders ==> orders[id] == parsed(id).GetOr(0)
    {
      orders := orders[ids[i] := match parsed(ids[i]) case Some(n) => n case None => 0];
    }
    var keys := seq(|ids|, i requires 0 <= i < |ids| => if ids[i] in orders then orders[ids[i]] else 0);
    forall i | 0 <= i < |ids| ensures keys[i] == Keys(ids, parsed)[i] {
      assert ids[i] in orders.Keys;
    }
    assert keys == Keys(ids, parsed);
    sorted := Picked(ids, StableOrder(keys, |ids|));
  }

  // ---------------------------------------------------------------------------
  // The membership table
  // ---------------------------------------------------------------------------

  datatype ScannerRow = ScannerRow(config: ScannerConfig, enabled: bool)

  type Members = map<(nat, nat), nat>      // (profile, scanner) -> order_index

  predicate Distinct(ids: seq<nat>) {
    forall i, j :: 0 <= i < j < |ids| ==> ids[i] != ids[j]
  }

  // The profile has exactly these scanners, numbered in this order.
  ghost predicate Holds(members: Members, profile: nat, ids: seq<nat>) {
    && (forall id :: (profile, id) in members <==> id in ids)
    && (forall i :: 0 <= i < |ids| ==> (profile, ids[i]) in members && members[(profile, ids[i])] == i)
  }

  ghost predicate SameElsewhere(before: Members, after: Members, profile: nat) {
    forall k :: k in before || k in after ==>
      k.0 != profile ==> k in before && k in after && before[k] == after[k]
  }

  predicate IsEnabled(scanners: map<nat, ScannerRow>, id: nat) {
    id in scanners && scanners[id].enabled
  }

  // What the query may return: the enabled members by index, equal indexes in any
  // order.
  ghost predicate ReadOf(members: Members, scanners: map<nat, ScannerRow>, profile: nat, rows: seq<ScannerConfig>) {
    && (forall i :: 0 <= i < |rows| ==>
          (profile, rows[i].id) in members && IsEnabled(scanners, rows[i].id) && scanners[rows[i].id].config == rows[i])
    && (forall i, j :: 0 <= i < j < |rows| ==>
          rows[i].id != rows[j].id && members[(profile, rows[i].id)] <= members[(profile, rows[j].id)])
    && (forall id :: (profile, id) in members && IsEnabled(scanners, id) ==> scanners[id].config in rows)
  }

  class ProfileStore {
    var profiles: set<nat>
    var scanners: map<nat, ScannerRow>
    var members: Members

    ghost predicate Valid()
      reads this
    {
      forall id :: id in scanners ==> scanners[id].config.id == id
    }

    // One transaction. A repeated id, an unknown scanner or a deleted profile
    // raises and leaves the old membership.
    method SetProfileScanners(profile: nat, ids: seq<nat>) returns (r: Outcome)
      modifies this`members
      ensures r.Returned? <==>
        Distinct(ids) && (forall i :: 0 <= i < |ids| ==> ids[i] in scanners) && (ids == [] || profile in profiles)
      ensures r.Returned? ==> Holds(members, profile, ids) && SameElsewhere(old(members), members, profile)
      ensures r.Raised? ==> members == old(members)
    {
      var before := members;
      members := map k | k in members && k.0 != profile :: members[k];
      for index := 0 to |ids|
        invariant Holds(members, profile, ids[..index]) && SameElsewhere(old(members), members, profile)
        invariant Distinct(ids[..index]) && (forall i :: 0 <= i < index ==> ids[i] in scanners)
        invariant index == 0 || profile in profiles
      {
        if profile !in profiles || ids[index] !in scanners || (profile, ids[index]) in members {
          assert (profile, ids[index]) in members ==> ids[index] in ids[..index];
          members := before;
          return Raised;
        }
        assert ids[..index + 1] == ids[..index] + [ids[index]];
        members := members[(profile, ids[index]) := index];
      }
      assert ids[..|ids|] == ids;
      return Returned;
    }

    method GetProfileScanners(profile: nat) returns (rows: seq<ScannerConfig>)
      requires Valid()
      ensures ReadOf(members, scanners, profile, rows)
      ensures forall i :: 0 <= i < |rows| ==> rows[i].id in scanners && scanners[rows[i].id].enabled
      ensures forall id :: (profile, id) in members && id in scanners && scanners[id].enabled ==>
        scanners[id].config in rows
    {
      var left := set k | k in members && k.0 == profile && IsEnabled(scanners, k.1) :: k.1;
      rows := [];
      while left != {}
        invariant forall id :: id in left ==> (profile, id) in members
        invariant Reading(members, scanners, profile, left, rows)
        decreases left
      {
        LeastExists(members, profile, left);
        var next :| IsLeast(members, profile, left, next);
        ReadOneMore(members, scanners, profile, left, rows, next);
        rows := rows + [scanners[next].config];
        left := left - {next};
      }
    }
  }

  // `rows` has been read and `left` is still to come.
  ghost predicate Reading(members: Members, scanners: map<nat, ScannerRow>, profile: nat, left: set<nat>,
                          rows: seq<ScannerConfig>)
  {
    && (forall id :: id in left ==> (profile, id) in members && IsEnabled(scanners, id))
    && (forall i :: 0 <= i < |rows| ==>
          (profile, rows[i].id) in members && IsEnabled(scanners, rows[i].id) && scanners[rows[i].id].config == rows[i])
    && (forall i, id :: 0 <= i < |rows| && id in left ==>
          rows[i].id != id && members[(profile, rows[i].id)] <= members[(profile, id)])
    && (forall i, j :: 0 <= i < j < |rows| ==>
          rows[i].id != rows[j].id && members[(profile, rows[i].id)] <= members[(profile, rows[j].id)])
    && (forall id :: (profile, id) in members && IsEnabled(scanners, id) ==> id in left || scanners[id].config in rows)
  }

  lemma ReadOneMore(members: Members, scanners: map<nat, ScannerRow>, profile: nat, left: set<nat>,
                    rows: seq<ScannerConfig>, next: nat)
    requires Reading(members, scanners, profile, left, rows) && IsLeast(members, profile, left, next)
    requires scanners[next].config.id == next
    ensures Reading(members, scanners, profile, left - {next}, rows + [scanners[next].config])
  {}

  predicate IsLeast(members: Members, profile: nat, left: set<nat>, id: nat)
    requires forall j :: j in left ==> (profile, j) in members
  {
    id in left && forall j :: j in left ==> members[(profile, id)] <= members[(profile, j)]
  }

  lemma {:induction false} LeastExists(members: Members, profile: nat, left: set<nat>)
    requires left != {} && forall j :: j in left ==> (profile, j) in members
    ensures exists id :: IsLeast(members, profile, left, id)
  {
    var x :| x in left;
    var others := left - {x};
    if others == {} {
      assert left == {x};
      assert IsLeast(members, profile, left, x);
    } else {
      LeastExists(members, profile, others);
      var y :| IsLeast(members, profile, others, y);
      var least := if members[(profile, x)] <= members[(profile, y)] then x else y;
      assert IsLeast(members, profile, left, least);
    }
  }

  // ---------------------------------------------------------------------------
  // From the form to the verdict
  // ---------------------------------------------------------------------------

  predicate IsAnswer(st: ResultStatus) {
    st == Clean || st == Infected
  }

  // The rows come back in the order of (number on the form, place on the form).
  lemma RowsFollowForm(form: seq<nat>, keys: seq<int>, members: Members, scanners: map<nat, ScannerRow>, profile: nat,
                       rows: seq<ScannerConfig>, i: nat, j: nat, p: nat, q: nat)
    requires |keys| == |form| && Distinct(form)
    requires Holds(members, profile, Picked(form, StableOrder(keys, |form|)))
    requires ReadOf(members, scanners, profile, rows)
    requires i < j < |rows| && p < |form| && q < |form| && rows[i].id == form[p] && rows[j].id == form[q]
    ensures Before(keys, p, q)
  {
    var order := StableOrder(keys, |form|);
    var sorted := Picked(form, order);
    assert p in order && q in order;
    var m :| 0 <= m < |order| && order[m] == p;
    var n :| 0 <= n < |order| && order[n] == q;
    assert sorted[m] == form[p] && sorted[n] == form[q];
    assert members[(profile, sorted[m])] == m && members[(profile, sorted[n])] == n;
    assert m < n;
  }

  // Every row that is read back is on the form.
  lemma RowOnForm(form: seq<nat>, keys: seq<int>, members: Members, scanners: map<nat, ScannerRow>, profile: nat,
                  rows: seq<ScannerConfig>, i: nat) returns (p: nat)
    requires |keys| == |form|
    requires Holds(members, profile, Picked(form, StableOrder(keys, |form|)))
    requires ReadOf(members, scanners, profile, rows) && i < |rows|
    ensures p < |form| && form[p] == rows[i].id
  {
    var order := StableOrder(keys, |form|);
    var sorted := Picked(form, order);
    assert rows[i].id in sorted;
    var m :| 0 <= m < |sorted| && sorted[m] == rows[i].id;
    p := order[m];
  }

  // Of the enabled scanners that gave an answer, the one at row i has the least
  // (number, place) on the form, its place being p.
  ghost predicate Decides(form: seq<nat>, keys: seq<int>, rows: seq<ScannerConfig>, outcomes: seq<ScannerOutcome>,
                          p: int, i: int)
    requires |keys| == |form| && |outcomes| == |rows|
  {
    && 0 <= p < |form| && 0 <= i < |rows| && rows[i].id == form[p] && IsAnswer(outcomes[i].status)
    && forall q, j :: 0 <= q < |form| && 0 <= j < |rows| && rows[j].id == form[q] && IsAnswer(outcomes[j].status) ==>
         p == q || Before(keys, p, q)
  }

  // The first answer in the order of the rows is the one that decides.
  lemma FirstAnswerDecides(form: seq<nat>, keys: seq<int>, members: Members, scanners: map<nat, ScannerRow>,
                           profile: nat, rows: seq<ScannerConfig>, outcomes: seq<ScannerOutcome>, k: nat)
    returns (p: nat)
    requires |keys| == |form| && Distinct(form) && |outcomes| == |rows|
    requires Holds(members, profile, Picked(form, StableOrder(keys, |form|)))
    requires ReadOf(members, scanners, profile, rows)
    requires FirstAnswer(outcomes, k)
    ensures Decides(form, keys, rows, outcomes, p, k)
  {
    p := RowOnForm(form, keys, members, scanners, profile, rows, k);
    forall q, j | 0 <= q < |form| && 0 <= j < |rows| && rows[j].id == form[q] && IsAnswer(outcomes[j].status)
      ensures p == q || Before(keys, p, q)
    {
      if j == k {
        assert form[p] == form[q];
      } else {
        assert k < j;
        RowsFollowForm(form, keys, members, scanners, profile, rows, k, j, p, q);
      }
    }
  }

  lemma OnlyOneDecides(form: seq<nat>, keys: seq<int>, rows: seq<ScannerConfig>, outcomes: seq<ScannerOutcome>,
                       p: int, k: int, q: int, j: int)
    requires |keys| == |form| && |outcomes| == |rows| && forall i, m :: 0 <= i < m < |rows| ==> rows[i].id != rows[m].id
    requires Decides(form, keys, rows, outcomes, p, k) && Decides(form, keys, rows, outcomes, q, j)
    ensures p == q && k == j
  {}

  // FIRST_SUCCESS end to end: the numbers typed into the form, the stable sort,
  // the stored indexes, the read that drops disabled scanners, the playbook's
  // loop and the first-match rule together choose the answer of the enabled,
  // answering scanner with the least (number, place); without one, the file is
  // refused.
  lemma FirstSuccessEndToEnd(form: seq<nat>, parsed: nat -> Option<int>, members: Members,
                             scanners: map<nat, ScannerRow>, profile: nat, rows: seq<ScannerConfig>,
                             runs: seq<ContainerRun>, raw: seq<RawResult>)
    requires Distinct(form)
    requires Holds(members, profile, Picked(form, StableOrder(Keys(form, parsed), |form|)))
    requires ReadOf(members, scanners, profile, rows)
    requires |runs| == |rows| == |raw| && forall i :: 0 <= i < |rows| ==> raw[i] == ResultFor(rows[i], runs[i])
    ensures var keys := Keys(form, parsed); var outcomes := RawOutcomes(raw);
      var d := Aggregate(outcomes, FirstSuccess);
      && (forall p, i :: Decides(form, keys, rows, outcomes, p, i) ==>
            d == if StatusOf(ResultFor(rows[i], runs[i])) == Clean then ACCEPTED
                 else Decision(INFECTED, false, ResultFor(rows[i], runs[i]).threat))
      && (d == REFUSED <==> forall i :: 0 <= i < |rows| ==> !IsAnswer(outcomes[i].status))
      && (d != REFUSED ==> exists p, i :: Decides(form, keys, rows, outcomes, p, i))
  {
    var keys, outcomes := Keys(form, parsed), RawOutcomes(raw);
    var k := FirstAnswerOrNone(outcomes);
    if k >= 0 {
      var p := FirstAnswerDecides(form, keys, members, scanners, profile, rows, outcomes, k);
      forall q, j | Decides(form, keys, rows, outcomes, q, j) ensures j == k {
        OnlyOneDecides(form, keys, rows, outcomes, p, k, q, j);
      }
    }
  }

  lemma FirstAnswerOrNone(rs: seq<ScannerOutcome>) returns (k: int)
    ensures k < 0 ==> Aggregate(rs, FirstSuccess) == REFUSED && forall i :: 0 <= i < |rs| ==> !IsAnswer(rs[i].status)
    ensures k >= 0 ==>
      FirstAnswer(rs, k) && IsAnswer(rs[k].status)
      && Aggregate(rs, FirstSuccess) == (if rs[k].status == Clean then ACCEPTED else Detected(rs[k]))
      && Aggregate(rs, FirstSuccess) != REFUSED
  {
    FirstSuccessfulFinds(rs);
    if Reports(rs, Clean) || Reports(rs, Infected) {
      k := AnswerPosition(rs);
    } else {
      k := -1;
    }
  }
}
