/** The recommended-action panel (components/action-panel.tsx): a queue of
    pending actions and a history of decided ones.  Approving or rejecting an
    action moves its first pending occurrence, with the new status, to the
    front of the history and drops every pending entry with that id.  Each
    React state setter is read as a pure map from the old state to the new. */
module ActionPanel {
  import opened Wrappers

  datatype Impact = High | Medium | Low

  datatype Status = Pending | Approved | Rejected

  datatype RecommendedAction = RecommendedAction(
    id: string,
    title: string,
    description: string,
    justification: string,
    impact: Impact,
    status: Status)

  /** The two pieces of component state: `actions` and `actionHistory`. */
  datatype Panel = Panel(pending: seq<RecommendedAction>, history: seq<RecommendedAction>)

  /** The actions the panel starts with. */
  const InitialActions: seq<RecommendedAction> := [
    RecommendedAction(
      "1",
      "Pay Invoice #5678",
      "Supplier ABC has an invoice due in 2 days. Recommend payment processing today.",
      "Early payment qualifies for a 2% discount, saving $240.",
      Medium,
      Pending),
    RecommendedAction(
      "2",
      "Follow up with Client XYZ",
      "Client XYZ has an overdue invoice of $12,500. Recommend sending a reminder.",
      "Invoice is 15 days overdue and affects cash flow projections.",
      High,
      Pending)
  ]

  const InitialPanel: Panel := Panel(InitialActions, [])

  // ---------------------------------------------------------------------------
  // Sequence helpers

  predicate HasId(s: seq<RecommendedAction>, id: string) {
    exists i :: 0 <= i < |s| && s[i].id == id
  }

  /** `i` is the position of the first entry of `s` with this id. */
  predicate IsFirstWithId(s: seq<RecommendedAction>, id: string, i: int) {
    && 0 <= i < |s|
    && s[i].id == id
    && forall j :: 0 <= j < i ==> s[j].id != id
  }

  /** No two entries share an id. */
  predicate UniqueIds(s: seq<RecommendedAction>) {
    forall i, j :: 0 <= i < j < |s| ==> s[i].id != s[j].id
  }

  /** The number of entries with this id. */
  function CountId(s: seq<RecommendedAction>, id: string): (n: nat)
    ensures n <= |s|
    ensures n == 0 <==> !HasId(s, id)
  {
    if s == [] then 0
    else (if s[0].id == id then 1 else 0) + CountId(s[1..], id)
  }

  /** Array `find` by id: the first entry with the id, or None when there is
      none (JavaScript's `undefined`). */
  function Find(s: seq<RecommendedAction>, id: string): (r: Option<RecommendedAction>)
    ensures r.None? <==> !HasId(s, id)
    ensures forall i :: IsFirstWithId(s, id, i) ==> r == Some(s[i])
  {
    if s == [] then None
    else if s[0].id == id then Some(s[0])
    else
      var r := Find(s[1..], id);
      assert forall i :: IsFirstWithId(s, id, i) ==> IsFirstWithId(s[1..], id, i - 1);
      assert HasId(s[1..], id) ==> HasId(s, id) by {
        if HasId(s[1..], id) {
          var k :| 0 <= k < |s[1..]| && s[1..][k].id == id;
          assert s[k + 1].id == id;
        }
      }
      r
  }

  /** Array `filter` keeping the entries whose id differs. */
  function WithoutId(s: seq<RecommendedAction>, id: string): (r: seq<RecommendedAction>)
    ensures forall a :: a in r <==> a in s && a.id != id
    ensures |r| == |s| - CountId(s, id)
    ensures !HasId(s, id) ==> r == s
  {
    if s == [] then []
    else if s[0].id == id then WithoutId(s[1..], id)
    else [s[0]] + WithoutId(s[1..], id)
  }

  /** Filtering distributes over concatenation: the entries that stay keep
      their relative order. */
  lemma {:induction false} WithoutIdDistributes(a: seq<RecommendedAction>, b: seq<RecommendedAction>, id: string)
    ensures WithoutId(a + b, id) == WithoutId(a, id) + WithoutId(b, id)
  {
    if a == [] {
      assert a + b == b;
    } else {
      var ab := a + b;
      assert ab[0] == a[0] && ab[1..] == a[1..] + b;
      WithoutIdDistributes(a[1..], b, id);
      if a[0].id == id {
        assert WithoutId(ab, id) == WithoutId(a[1..] + b, id);
      } else {
        assert WithoutId(ab, id) == [a[0]] + WithoutId(a[1..] + b, id);
        assert WithoutId(a, id) == [a[0]] + WithoutId(a[1..], id);
      }
    }
  }

  /** With unique ids an id occurs at most once. */
  lemma {:induction false} UniqueIdsCountAtMostOne(s: seq<RecommendedAction>, id: string)
    requires UniqueIds(s)
    ensures CountId(s, id) <= 1
  {
    if s != [] {
      UniqueIdsCountAtMostOne(s[1..], id);
      if s[0].id == id {
        forall k | 0 <= k < |s[1..]|
          ensures s[1..][k].id != id
        {
          assert s[1..][k] == s[k + 1];
        }
      }
    }
  }

  /** Filtering keeps ids unique. */
  lemma {:induction false} WithoutIdKeepsUniqueIds(s: seq<RecommendedAction>, id: string)
    requires UniqueIds(s)
    ensures UniqueIds(WithoutId(s, id))
  {
    if s != [] {
      WithoutIdKeepsUniqueIds(s[1..], id);
      var rest := WithoutId(s[1..], id);
      if s[0].id != id {
        forall k | 0 <= k < |rest|
          ensures rest[k].id != s[0].id
        {
          assert rest[k] in s[1..];
          var m :| 0 <= m < |s[1..]| && s[1..][m] == rest[k];
          assert s[m + 1] == rest[k];
        }
        assert WithoutId(s, id) == [s[0]] + rest;
      }
    }
  }

  // ---------------------------------------------------------------------------
  // Approve and reject

  /** Pending entries are all pending; history entries are all decided. */
  predicate WellFormed(p: Panel) {
    && (forall a :: a in p.pending ==> a.status == Pending)
    && (forall a :: a in p.history ==> a.status != Pending)
  }

  /** The common body of `approveAction` and `rejectAction`: when some pending
      entry has the id, its first occurrence with status `verdict` goes to the
      front of the history and every pending entry with the id is dropped;
      otherwise nothing changes. */
  function Resolve(p: Panel, id: string, verdict: Status): (r: Panel)
    ensures !HasId(p.pending, id) ==> r == p
    ensures HasId(p.pending, id) ==>
              && |r.history| == |p.history| + 1
              && r.history[1..] == p.history
              && exists i :: IsFirstWithId(p.pending, id, i) && r.history[0] == p.pending[i].(status := verdict)
    ensures r.pending == WithoutId(p.pending, id)
    ensures forall a :: a in r.pending ==> a.id != id
    ensures WellFormed(p) && verdict != Pending ==> WellFormed(r)
    ensures UniqueIds(p.pending) ==>
              && UniqueIds(r.pending)
              && |r.pending| + |r.history| == |p.pending| + |p.history|
  {
    match Find(p.pending, id)
    case None => p
    case Some(found) =>
      var r := Panel(WithoutId(p.pending, id), [found.(status := verdict)] + p.history);
      assert exists i :: IsFirstWithId(p.pending, id, i) by {
        FirstWithIdExists(p.pending, id);
      }
      assert r.history[1..] == p.history;
      if UniqueIds(p.pending) then
        UniqueIdsCountAtMostOne(p.pending, id);
        WithoutIdKeepsUniqueIds(p.pending, id);
        r
      else
        r
  }

  /** Some entry is the first one with the id whenever any entry has it. */
  lemma {:induction false} FirstWithIdExists(s: seq<RecommendedAction>, id: string)
    requires HasId(s, id)
    ensures exists i :: IsFirstWithId(s, id, i)
  {
    if s[0].id == id {
      assert IsFirstWithId(s, id, 0);
    } else {
      var k :| 0 <= k < |s| && s[k].id == id;
      assert s[1..][k - 1].id == id;
      FirstWithIdExists(s[1..], id);
      var i :| IsFirstWithId(s[1..], id, i);
      assert IsFirstWithId(s, id, i + 1);
    }
  }

  /** `approveAction(id)`. */
  function Approve(p: Panel, id: string): (r: Panel)
    ensures r == Resolve(p, id, Approved)
    ensures HasId(p.pending, id) ==> r.history[0].status == Approved && r.history[0].id == id
  {
    Resolve(p, id, Approved)
  }

  /** `rejectAction(id)`. */
  function Reject(p: Panel, id: string): (r: Panel)
    ensures r == Resolve(p, id, Rejected)
    ensures HasId(p.pending, id) ==> r.history[0].status == Rejected && r.history[0].id == id
  {
    Resolve(p, id, Rejected)
  }

  // ---------------------------------------------------------------------------
  // Sessions of clicks

  /** A click on one of the two buttons of a pending action. */
  datatype Click = ApproveClick(id: string) | RejectClick(id: string)

  function Step(p: Panel, c: Click): Panel {
    match c
    case ApproveClick(id) => Approve(p, id)
    case RejectClick(id) => Reject(p, id)
  }

  /** The panel after a sequence of clicks, applied in order. */
  function Run(p: Panel, clicks: seq<Click>): Panel
    decreases |clicks|
  {
    if clicks == [] then p else Run(Step(p, clicks[0]), clicks[1..])
  }

  /** Clicking preserves well-formedness, unique pending ids and the total
      number of entries. */
  lemma {:induction false} RunPreservesInvariants(p: Panel, clicks: seq<Click>)
    requires WellFormed(p) && UniqueIds(p.pending)
    ensures var q := Run(p, clicks);
            && WellFormed(q)
            && UniqueIds(q.pending)
            && |q.pending| + |q.history| == |p.pending| + |p.history|
    decreases |clicks|
  {
    if clicks != [] {
      RunPreservesInvariants(Step(p, clicks[0]), clicks[1..]);
    }
  }

  /** From the initial panel, whatever the user clicks, every pending entry is
      pending, every history entry is approved or rejected, and no action is
      lost or duplicated. */
  lemma ReachableFromInitial(clicks: seq<Click>)
    ensures var q := Run(InitialPanel, clicks);
            && (forall a :: a in q.pending ==> a.status == Pending)
            && (forall a :: a in q.history ==> a.status == Approved || a.status == Rejected)
            && |q.pending| + |q.history| == 2
  {
    assert InitialActions[0].id != InitialActions[1].id;
    RunPreservesInvariants(InitialPanel, clicks);
  }
}
