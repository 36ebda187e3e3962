/** The calculator component over a session: the initial input set, the cost
    result held beside it, and the recomputation that follows every edit. */
module Session {
  import Catalog
  import Division
  import opened Costs
  import opened Resolver

  /** The input set a session starts from. It agrees with the catalog entry of
      its own selection. */
  function InitialInputs(): (r: Inputs)
    ensures Consistent(r)
    ensures r.position == Catalog.SoftwareEngineer && r.level == Catalog.Mid
    ensures r.numEmployees == 1.0 && r.usBenefits == 28.0
  {
    Inputs(Catalog.SoftwareEngineer, Catalog.Mid, 1.0, 120000.0, 28.0, 2000.0)
  }

  /** The cost result shown before the first recomputation: every figure zero. */
  function ZeroCosts(): CostResult {
    CostResult(UsCosts(0.0, 0.0, 0.0),
               PhCosts(0.0, 0.0, 0.0, 0.0, 0.0, 0.0, 0.0, 0.0),
               Savings(0.0, Division.Finite(0.0)))
  }

  /** The component's state: the input set and the cost result it displays. */
  datatype Calculator = Calculator(inputs: Inputs, costs: CostResult) {
    /** The displayed costs are those of the current inputs. */
    predicate Fresh() {
      costs == Calculate(inputs)
    }
  }

  /** The effect that recomputes the costs from the current inputs. It
      changes the state exactly when the displayed costs are stale. */
  function Recompute(s: Calculator): (r: Calculator)
    ensures s.Fresh() <==> r == s
  {
    s.(costs := Calculate(s.inputs))
  }

  /** The component once mounted: initial inputs, costs recomputed once. */
  function Mounted(): Calculator {
    Recompute(Calculator(InitialInputs(), ZeroCosts()))
  }

  /** Until the first recomputation the component shows all-zero costs, which
      are not those of its inputs; once mounted, it shows the derived costs. */
  lemma FirstRenderShowsZeros()
    ensures !Calculator(InitialInputs(), ZeroCosts()).Fresh()
    ensures Mounted().inputs == InitialInputs() && Mounted().Fresh()
  {
  }

  /** One form edit followed by the recomputation it triggers. */
  function Step(s: Calculator, c: Change): Calculator {
    Recompute(s.(inputs := ApplyChange(s.inputs, c)))
  }

  /** The input set after a sequence of edits, applied in order. */
  function Replay(i: Inputs, cs: seq<Change>): Inputs
    decreases |cs|
  {
    if |cs| == 0 then i else ApplyChange(Replay(i, cs[..|cs| - 1]), cs[|cs| - 1])
  }

  /** The component after a sequence of edits from mounting. */
  function Run(cs: seq<Change>): Calculator
    decreases |cs|
  {
    if |cs| == 0 then Mounted() else Step(Run(cs[..|cs| - 1]), cs[|cs| - 1])
  }

  /** After any sequence of edits the component holds the replayed inputs, and
      the costs it displays are derived from them. */
  lemma {:induction false} RunIsReplay(cs: seq<Change>)
    ensures Run(cs).inputs == Replay(InitialInputs(), cs)
    ensures Run(cs).Fresh()
    decreases |cs|
  {
    if |cs| > 0 {
      RunIsReplay(cs[..|cs| - 1]);
    }
  }

  /** Replaying two sequences one after the other is replaying their concatenation. */
  lemma {:induction false} ReplayAppend(i: Inputs, a: seq<Change>, b: seq<Change>)
    ensures Replay(i, a + b) == Replay(Replay(i, a), b)
    decreases |b|
  {
    if |b| == 0 {
      assert a + b == a;
    } else {
      var b' := b[..|b| - 1];
      assert (a + b)[..|a + b| - 1] == a + b';
      ReplayAppend(i, a, b');
    }
  }

  /** A field that no edit of the sequence writes keeps its value. */
  lemma {:induction false} ReplayFrame(i: Inputs, cs: seq<Change>, f: Field)
    requires forall k :: 0 <= k < |cs| ==> !Writes(cs[k], f)
    ensures Same(Replay(i, cs), i, f)
    decreases |cs|
  {
    if |cs| > 0 {
      ReplayFrame(i, cs[..|cs| - 1], f);
      var before := Replay(i, cs[..|cs| - 1]);
      assert Same(ApplyChange(before, cs[|cs| - 1]), before, f);
    }
  }

  /** The last edit that writes a field decides its final value. */
  lemma ReplayLastWriterWins(i: Inputs, cs: seq<Change>, k: nat, f: Field)
    requires k < |cs| && Writes(cs[k], f)
    requires forall j :: k < j < |cs| ==> !Writes(cs[j], f)
    ensures Same(Replay(i, cs), ApplyChange(Replay(i, cs[..k]), cs[k]), f)
  {
    var head := cs[..k + 1];
    var tail := cs[k + 1..];
    assert cs == head + tail;
    ReplayAppend(i, head, tail);
    assert head[..k] == cs[..k];
    assert Replay(i, head) == ApplyChange(Replay(i, cs[..k]), cs[k]);
    assert forall j :: 0 <= j < |tail| ==> tail[j] == cs[k + 1 + j];
    ReplayFrame(Replay(i, head), tail, f);
  }

  /** A numeric field ends with the value of its last edit. */
  lemma ReplayLastEdit(i: Inputs, cs: seq<Change>, k: nat)
    requires k < |cs| && cs[k].SetNumber?
    requires forall j :: k < j < |cs| ==> !Writes(cs[j], cs[k].field)
    ensures Read(Replay(i, cs), cs[k].field) == cs[k].value
  {
    ReplayLastWriterWins(i, cs, k, cs[k].field);
  }

  /** The position ends as the last position selected. */
  lemma ReplayLastPosition(i: Inputs, cs: seq<Change>, k: nat)
    requires k < |cs| && cs[k].SetPosition?
    requires forall j :: k < j < |cs| ==> !cs[j].SetPosition?
    ensures Replay(i, cs).position == cs[k].position
  {
    ReplayLastWriterWins(i, cs, k, Position);
  }

  /** Without salary edits, salaries stay at the catalog defaults of the
      current selection, whatever positions, levels and headcounts are chosen. */
  lemma {:induction false} ReplayKeepsConsistent(i: Inputs, cs: seq<Change>)
    requires Consistent(i)
    requires forall k :: 0 <= k < |cs| ==> !EditsSalary(cs[k])
    ensures Consistent(Replay(i, cs))
    decreases |cs|
  {
    if |cs| > 0 {
      ReplayKeepsConsistent(i, cs[..|cs| - 1]);
      var before := Replay(i, cs[..|cs| - 1]);
      var c := cs[|cs| - 1];
      var after := ApplyChange(before, c);
      if c.SetNumber? {
        assert !Writes(c, Position) && !Writes(c, Level) && !Writes(c, UsSalary) && !Writes(c, PhSalary);
        assert Same(after, before, Position) && Same(after, before, Level);
        assert Same(after, before, UsSalary) && Same(after, before, PhSalary);
      }
    }
  }
}
