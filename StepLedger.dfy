/** The step ledger of one assistant message: the upsert-by-id merge that the
    chat page applies to every step the running strategy emits (App.tsx:223-237),
    and what folding that merge over a whole run produces. */
module StepLedger {
  import opened Types

  /** The ids of a step list, in order. */
  function Ids(steps: seq<AgentStep>): (r: seq<string>)
    ensures |r| == |steps|
    ensures forall i :: 0 <= i < |steps| ==> r[i] == steps[i].id
  {
    seq(|steps|, i requires 0 <= i < |steps| => steps[i].id)
  }

  /** No two entries share an id. */
  predicate DistinctIds(steps: seq<AgentStep>)
  {
    forall i, j :: 0 <= i < j < |steps| ==> steps[i].id != steps[j].id
  }

  /** `steps.findIndex(s => s.id === id)`: the first position holding `id`, or -1. */
  function IndexOfId(steps: seq<AgentStep>, id: string): (k: int)
    ensures -1 <= k < |steps|
    ensures k >= 0 ==> steps[k].id == id && forall j :: 0 <= j < k ==> steps[j].id != id
    ensures k == -1 <==> id !in Ids(steps)
  {
    if |steps| == 0 then -1
    else if steps[0].id == id then 0
    else
      var k := IndexOfId(steps[1..], id);
      assert Ids(steps) == [steps[0].id] + Ids(steps[1..]);
      if k < 0 then -1 else k + 1
  }

  /** Merges one emitted step: a step whose id is already present replaces the
      first entry with that id in place; a new id is appended. */
  function Upsert(steps: seq<AgentStep>, step: AgentStep): (r: seq<AgentStep>)
    ensures step.id in Ids(steps) ==> |r| == |steps| && r[IndexOfId(steps, step.id)] == step
    ensures step.id !in Ids(steps) ==> |r| == |steps| + 1 && r[|steps|] == step
    ensures forall j :: 0 <= j < |steps| && j != IndexOfId(steps, step.id) ==> r[j] == steps[j]
  {
    var k := IndexOfId(steps, step.id);
    if k >= 0 then steps[k := step] else steps + [step]
  }

  /** A step with a new id is appended. */
  lemma UpsertFresh(steps: seq<AgentStep>, step: AgentStep)
    requires forall j :: 0 <= j < |steps| ==> steps[j].id != step.id
    ensures Upsert(steps, step) == steps + [step]
  {
  }

  /** A step whose id first occurs at `k` replaces the entry at `k`. */
  lemma UpsertAt(steps: seq<AgentStep>, k: nat, step: AgentStep)
    requires k < |steps| && steps[k].id == step.id
    requires forall j :: 0 <= j < k ==> steps[j].id != step.id
    ensures Upsert(steps, step) == steps[k := step]
  {
    assert IndexOfId(steps, step.id) == k;
  }

  /** Upsert keeps the ids of the ledger distinct and only ever adds the new id. */
  lemma UpsertIds(steps: seq<AgentStep>, step: AgentStep)
    ensures Ids(Upsert(steps, step)) ==
              if step.id in Ids(steps) then Ids(steps) else Ids(steps) + [step.id]
    ensures DistinctIds(steps) ==> DistinctIds(Upsert(steps, step))
  {
    var r := Upsert(steps, step);
    var k := IndexOfId(steps, step.id);
    if k >= 0 {
      assert Ids(r) == Ids(steps);
    } else {
      assert Ids(r) == Ids(steps) + [step.id];
      if DistinctIds(steps) {
        forall i, j | 0 <= i < j < |r| ensures r[i].id != r[j].id {
          if j == |steps| {
            assert steps[i].id == Ids(steps)[i];
          }
        }
      }
    }
  }

  /** Re-emitting a step id replaces what the earlier emission left: merging two
      events with the same id equals merging only the later one, at the
      position the id first took. */
  lemma UpsertSameIdTwice(steps: seq<AgentStep>, first: AgentStep, second: AgentStep)
    requires first.id == second.id
    ensures Upsert(Upsert(steps, first), second) == Upsert(steps, second)
  {
    var mid := Upsert(steps, first);
    var k := IndexOfId(steps, first.id);
    if k >= 0 {
      assert IndexOfId(mid, second.id) == k by {
        forall j | 0 <= j < k ensures mid[j].id != second.id {
          assert mid[j] == steps[j];
        }
      }
    } else {
      assert IndexOfId(mid, second.id) == |steps| by {
        forall j | 0 <= j < |steps| ensures mid[j].id != second.id {
          assert mid[j] == steps[j];
          assert steps[j].id == Ids(steps)[j];
        }
      }
    }
  }

  /** Folds Upsert over the events of a run, in emission order, starting from `steps`. */
  function MergeAll(steps: seq<AgentStep>, trace: seq<AgentStep>): (r: seq<AgentStep>)
    ensures DistinctIds(steps) ==> DistinctIds(r)
    decreases |trace|
  {
    if trace == [] then steps
    else
      var prev := MergeAll(steps, trace[..|trace| - 1]);
      UpsertIds(prev, trace[|trace| - 1]);
      Upsert(prev, trace[|trace| - 1])
  }

  /** The ledger a run leaves on a fresh assistant message (whose steps start as []). */
  function Ledger(trace: seq<AgentStep>): (r: seq<AgentStep>)
    ensures DistinctIds(r)
  {
    MergeAll([], trace)
  }

  /** Merging one more event extends the ledger by one Upsert. */
  lemma LedgerSnoc(trace: seq<AgentStep>, x: AgentStep)
    ensures Ledger(trace + [x]) == Upsert(Ledger(trace), x)
  {
    assert (trace + [x])[..|trace|] == trace;
  }

  /** An event with an id the ledger does not hold yet is appended to it. */
  lemma LedgerSnocFresh(trace: seq<AgentStep>, x: AgentStep, before: seq<AgentStep>)
    requires Ledger(trace) == before
    requires forall j :: 0 <= j < |before| ==> before[j].id != x.id
    ensures Ledger(trace + [x]) == before + [x]
  {
    LedgerSnoc(trace, x);
    UpsertFresh(before, x);
  }

  /** An event whose id the ledger holds at `k` overwrites entry `k`. */
  lemma LedgerSnocAt(trace: seq<AgentStep>, x: AgentStep, before: seq<AgentStep>, k: nat)
    requires Ledger(trace) == before
    requires k < |before| && before[k].id == x.id
    requires forall j :: 0 <= j < k ==> before[j].id != x.id
    ensures Ledger(trace + [x]) == before[k := x]
  {
    LedgerSnoc(trace, x);
    UpsertAt(before, k, x);
  }

  /** A `running, completed` pair under an id the ledger does not hold yet
      adds exactly the completion. */
  lemma LedgerPair(trace: seq<AgentStep>, before: seq<AgentStep>, opening: AgentStep, closing: AgentStep)
    requires Ledger(trace) == before
    requires opening.id == closing.id
    requires forall j :: 0 <= j < |before| ==> before[j].id != opening.id
    ensures Ledger(trace + [opening, closing]) == before + [closing]
  {
    LedgerSnocFresh(trace, opening, before);
    LedgerCloseLast(trace + [opening], before, opening, closing);
    assert trace + [opening] + [closing] == trace + [opening, closing];
  }

  /** A completion for the id of the ledger's last entry overwrites that entry. */
  lemma LedgerCloseLast(trace: seq<AgentStep>, before: seq<AgentStep>, opening: AgentStep, closing: AgentStep)
    requires Ledger(trace) == before + [opening]
    requires opening.id == closing.id
    requires forall j :: 0 <= j < |before| ==> before[j].id != opening.id
    ensures Ledger(trace + [closing]) == before + [closing]
  {
    LedgerSnocAt(trace, closing, before + [opening], |before|);
    assert (before + [opening])[|before| := closing] == before + [closing];
  }

  /** The ledger of `running, completed` pairs under distinct ids holds the completions. */
  lemma TwoPairsLedger(t0: AgentStep, t1: AgentStep, t2: AgentStep, t3: AgentStep)
    requires t0.id == t1.id && t2.id == t3.id && t1.id != t2.id
    ensures Ledger([t0, t1, t2, t3]) == [t1, t3]
  {
    LedgerPair([], [], t0, t1);
    assert [] + [t0, t1] == [t0, t1];
    LedgerPair([t0, t1], [t1], t2, t3);
    assert [t0, t1] + [t2, t3] == [t0, t1, t2, t3];
  }

  lemma ThreePairsLedger(t0: AgentStep, t1: AgentStep, t2: AgentStep, t3: AgentStep, t4: AgentStep, t5: AgentStep)
    requires t0.id == t1.id && t2.id == t3.id && t4.id == t5.id
    requires t1.id != t2.id && t1.id != t4.id && t3.id != t4.id
    ensures Ledger([t0, t1, t2, t3, t4, t5]) == [t1, t3, t5]
  {
    TwoPairsLedger(t0, t1, t2, t3);
    LedgerPair([t0, t1, t2, t3], [t1, t3], t4, t5);
    assert [t0, t1, t2, t3] + [t4, t5] == [t0, t1, t2, t3, t4, t5];
  }

  /** The ids of a list in order of first appearance, each once. */
  function FirstAppearances(ids: seq<string>): (r: seq<string>)
    decreases |ids|
  {
    if ids == [] then []
    else
      var prev := FirstAppearances(ids[..|ids| - 1]);
      if ids[|ids| - 1] in prev then prev else prev + [ids[|ids| - 1]]
  }

  /** The last event of the run that carries `id`, if any. */
  function LastWith(trace: seq<AgentStep>, id: string): (r: Option<AgentStep>)
    ensures r.Some? ==> r.value in trace && r.value.id == id
    ensures r.None? <==> id !in Ids(trace)
    decreases |trace|
  {
    if trace == [] then None
    else if trace[|trace| - 1].id == id then Some(trace[|trace| - 1])
    else
      var r := LastWith(trace[..|trace| - 1], id);
      assert Ids(trace) == Ids(trace[..|trace| - 1]) + [trace[|trace| - 1].id];
      r
  }

  /** Ids(trace) without its last element is the ids of the trace without its last event. */
  lemma IdsOfPrefix(trace: seq<AgentStep>)
    requires trace != []
    ensures Ids(trace)[..|trace| - 1] == Ids(trace[..|trace| - 1])
  {
  }

  /** The ledger holds one entry per distinct step id of the run, in order of
      first appearance. */
  lemma {:induction false} LedgerIds(trace: seq<AgentStep>)
    ensures Ids(Ledger(trace)) == FirstAppearances(Ids(trace))
    decreases |trace|
  {
    if trace != [] {
      var init := trace[..|trace| - 1];
      LedgerIds(init);
      IdsOfPrefix(trace);
      UpsertIds(Ledger(init), trace[|trace| - 1]);
    }
  }

  /** Every entry of `ledger` is the last event of `trace` with its id. */
  predicate EntriesAreLast(trace: seq<AgentStep>, ledger: seq<AgentStep>)
  {
    forall j :: 0 <= j < |ledger| ==> LastWith(trace, ledger[j].id) == Some(ledger[j])
  }

  /** One more event keeps every ledger entry equal to the last event of its id,
      given that the ledger of the shorter run had that property. */
  lemma LastEventsStep(trace: seq<AgentStep>, i: nat)
    requires trace != []
    requires EntriesAreLast(trace[..|trace| - 1], Ledger(trace[..|trace| - 1]))
    requires i < |Ledger(trace)|
    ensures LastWith(trace, Ledger(trace)[i].id) == Some(Ledger(trace)[i])
  {
    var init := trace[..|trace| - 1];
    var x := trace[|trace| - 1];
    var prev := Ledger(init);
    assert Ledger(trace) == Upsert(prev, x);
    var k := IndexOfId(prev, x.id);
    if (k >= 0 && i == k) || (k < 0 && i == |prev|) {
      assert Ledger(trace)[i] == x;
    } else {
      assert Ledger(trace)[i] == prev[i];
      assert prev[i].id != x.id by {
        if k >= 0 {
          assert prev[k].id == x.id;
        } else {
          assert prev[i].id == Ids(prev)[i];
        }
      }
    }
  }

  /** Every ledger entry is the LAST event emitted for its id. Together with
      LedgerIds this is the independent description of the fold that the chat
      page performs step by step. */
  lemma {:induction false} LedgerIsLastEvents(trace: seq<AgentStep>)
    ensures forall i :: 0 <= i < |Ledger(trace)| ==>
              LastWith(trace, Ledger(trace)[i].id) == Some(Ledger(trace)[i])
    decreases |trace|
  {
    if trace != [] {
      LedgerIsLastEvents(trace[..|trace| - 1]);
      forall i | 0 <= i < |Ledger(trace)|
        ensures LastWith(trace, Ledger(trace)[i].id) == Some(Ledger(trace)[i])
      {
        LastEventsStep(trace, i);
      }
    }
  }

  /** A run is settled when the last event of every id it emitted is `completed`. */
  predicate Settled(trace: seq<AgentStep>)
  {
    forall k :: 0 <= k < |trace| ==> LastWith(trace, trace[k].id).Some?
                                     && LastWith(trace, trace[k].id).value.status == Completed
  }

  /** Every step shows `completed`. */
  predicate AllCompleted(steps: seq<AgentStep>)
  {
    forall i :: 0 <= i < |steps| ==> steps[i].status == Completed
  }

  /** A settled run leaves only completed steps in the ledger. */
  lemma LedgerOfSettledRun(trace: seq<AgentStep>)
    requires Settled(trace)
    ensures AllCompleted(Ledger(trace))
  {
    LedgerIsLastEvents(trace);
    forall i | 0 <= i < |Ledger(trace)| ensures Ledger(trace)[i].status == Completed {
      var e := Ledger(trace)[i];
      assert LastWith(trace, e.id) == Some(e);
      var k :| 0 <= k < |trace| && trace[k] == e;
    }
  }
}
