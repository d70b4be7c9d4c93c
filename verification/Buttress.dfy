/** The processing-system frequency constraints of ipu-buttress.c: the least
    allowed frequency is kept up to date as constraints come and go, without
    looking at all of them each time. */
module Buttress {
  import opened Common

  const FREQ_STEP := 25

  function Max(a: nat, b: nat): nat { if a < b then b else a }

  /** The kernel's clamp: the high bound first, so that of reversed bounds a large
      value gives `high` and any other `low`. */
  function Clamp(value: nat, low: nat, high: nat): nat {
    if value >= high then high else if value <= low then low else value
  }

  /** The largest constraint, 0 if there is none. */
  function Largest(constraints: seq<nat>): nat {
    if constraints == [] then 0 else Max(constraints[0], Largest(constraints[1..]))
  }

  /** `constraints` head first; `efficient` and `max` are fused into the chip. */
  datatype State = State(efficient: nat, max: nat, constraints: seq<nat>, minFreq: nat)

  datatype Change = Add(freq: nat) | Remove(index: nat)

  function New(efficient: nat, max: nat): State { State(efficient, max, [], efficient) }

  predicate Legal(s: State, c: Change) { c.Remove? ==> c.index < |s.constraints| }

  /** ipu_buttress_add_psys_constraint and ipu_buttress_remove_psys_constraint. */
  function Apply(s: State, c: Change): State
    requires Legal(s, c)
  {
    match c
    case Add(freq) =>
      s.(constraints := [freq] + s.constraints, minFreq := if freq > s.minFreq then Min(freq, s.max) else s.minFreq)
    case Remove(i) =>
      var rest := Without(s.constraints, i);
      s.(constraints := rest,
         minFreq := if s.constraints[i] >= s.minFreq then Clamp(Largest(rest), s.efficient, s.max) else s.minFreq)
  }

  /** The cached minimum is what a full recomputation gives. */
  predicate Agrees(s: State) { s.minFreq == Clamp(Largest(s.constraints), s.efficient, s.max) }

  /** What the driver promises of the minimum: within the fused bounds, it meets every
      constraint as far as the fused maximum lets it, and it is no higher than that. */
  ghost predicate Meets(s: State) {
    && s.efficient <= s.minFreq <= s.max
    && (forall c | c in s.constraints :: Min(c, s.max) <= s.minFreq)
    && (s.minFreq == s.efficient || exists c :: c in s.constraints && Min(c, s.max) == s.minFreq)
  }

  lemma {:induction false} LargestMeans(cs: seq<nat>)
    ensures (forall c | c in cs :: c <= Largest(cs)) && (if cs == [] then Largest(cs) == 0 else Largest(cs) in cs)
  {
    if cs != [] {
      LargestMeans(cs[1..]);
      assert cs == [cs[0]] + cs[1..];
    }
  }

  lemma AgreesMeans(s: State)
    requires s.efficient <= s.max
    ensures Agrees(s) <==> Meets(s)
  {
    hide Largest;
    LargestMeans(s.constraints);
  }

  lemma {:induction false} LargestWithout(cs: seq<nat>, i: nat)
    requires i < |cs|
    ensures Largest(cs) == Max(cs[i], Largest(Without(cs, i)))
  {
    if i > 0 {
      LargestWithout(cs[1..], i - 1);
      assert Without(cs, i)[1..] == Without(cs[1..], i - 1);
    } else {
      assert Without(cs, 0) == cs[1..];
    }
  }

  lemma ApplyAgrees(s: State, c: Change)
    requires Agrees(s) && s.efficient <= s.max && Legal(s, c)
    ensures Agrees(Apply(s, c))
  {
    match c
    case Add(freq) =>
      assert ([freq] + s.constraints)[1..] == s.constraints;
    case Remove(i) =>
      LargestWithout(s.constraints, i);
  }

  lemma KeepsMeeting(s: State, c: Change)
    requires s.efficient <= s.max && Meets(s) && Legal(s, c)
    ensures Meets(Apply(s, c))
  {
    hide Meets, Agrees;
    AgreesMeans(s);
    ApplyAgrees(s, c);
    AgreesMeans(Apply(s, c));
  }

  ghost predicate AllLegal(s: State, changes: seq<Change>)
    decreases |changes|
  {
    changes == [] || (Legal(s, changes[0]) && AllLegal(Apply(s, changes[0]), changes[1..]))
  }

  ghost function Run(s: State, changes: seq<Change>): State
    requires AllLegal(s, changes)
    decreases |changes|
  {
    if changes == [] then s else Run(Apply(s, changes[0]), changes[1..])
  }

  lemma {:induction false} RunAgrees(s: State, changes: seq<Change>)
    requires Agrees(s) && s.efficient <= s.max && AllLegal(s, changes)
    ensures Agrees(Run(s, changes))
    decreases |changes|
  {
    if changes != [] {
      ApplyAgrees(s, changes[0]);
      RunAgrees(Apply(s, changes[0]), changes[1..]);
    }
  }

  ghost predicate RightAfter(s: State, changes: seq<Change>) { AllLegal(s, changes) ==> Agrees(Run(s, changes)) }

  /** The cache is right after every sequence of changes if and only if the fused
      efficient frequency is within the fused maximum. */
  lemma CacheCorrect(efficient: nat, max: nat)
    ensures efficient <= max <==>
              forall changes: seq<Change> :: RightAfter(New(efficient, max), changes)
  {
    var s := New(efficient, max);
    if efficient <= max {
      forall changes: seq<Change> ensures RightAfter(s, changes) {
        if AllLegal(s, changes) { RunAgrees(s, changes); }
      }
    } else {
      var changes := [Add(max)];
      assert changes[1..] == [] && AllLegal(s, changes);
      assert Run(s, changes) == Apply(s, Add(max)) == s.(constraints := [max] + s.constraints);
      assert Largest([max]) == max;
      assert !RightAfter(s, changes);
    }
  }

  /** Changes in any order that leave the same constraints leave the same minimum. */
  lemma {:induction false} LargestOfMultiset(a: seq<nat>, b: seq<nat>)
    requires multiset(a) == multiset(b)
    ensures Largest(a) == Largest(b)
  {
    if a == [] {
      assert |multiset(b)| == |b|;
    } else {
      assert a[0] in multiset(b);
      var i :| 0 <= i < |b| && b[i] == a[0];
      LargestWithout(b, i);
      WithoutCounts(b, i);
      WithoutCounts(a, 0);
      assert Without(a, 0) == a[1..];
      SameRest(multiset(a[1..]), multiset(Without(b, i)), a[0]);
      hide Without;
      LargestOfMultiset(a[1..], Without(b, i));
    }
  }

  lemma SameRest(a: multiset<nat>, b: multiset<nat>, x: nat)
    requires a + multiset{x} == b + multiset{x}
    ensures a == b
  {
    assert a + multiset{x} - multiset{x} == a && b + multiset{x} - multiset{x} == b;
  }

  lemma OrderIrrelevant(efficient: nat, max: nat, one: seq<Change>, other: seq<Change>)
    requires efficient <= max && AllLegal(New(efficient, max), one) && AllLegal(New(efficient, max), other)
    requires multiset(Run(New(efficient, max), one).constraints) == multiset(Run(New(efficient, max), other).constraints)
    ensures Run(New(efficient, max), one).minFreq == Run(New(efficient, max), other).minFreq
  {
    var s := New(efficient, max);
    RunAgrees(s, one);
    RunAgrees(s, other);
    FusesStay(s, one);
    FusesStay(s, other);
    LargestOfMultiset(Run(s, one).constraints, Run(s, other).constraints);
  }

  lemma {:induction false} FusesStay(s: State, changes: seq<Change>)
    requires AllLegal(s, changes)
    ensures Run(s, changes).efficient == s.efficient && Run(s, changes).max == s.max
    decreases |changes|
  {
    if changes != [] { FusesStay(Apply(s, changes[0]), changes[1..]); }
  }

  class Controls {
    const efficient: nat
    const max: nat
    const forceRatio: bool
    var constraints: seq<nat>
    var minFreq: nat
    var divisor: nat
    var qosFloor: nat

    function View(): State
      reads this
    {
      State(efficient, max, constraints, minFreq)
    }

    constructor (efficient: nat, max: nat, forceRatio: bool, divisor: nat, qosFloor: nat)
      ensures View() == New(efficient, max) && this.forceRatio == forceRatio
    {
      this.efficient, this.max, this.forceRatio := efficient, max, forceRatio;
      constraints, minFreq := [], efficient;
      this.divisor, this.qosFloor := divisor, qosFloor;
    }

    /** ipu_buttress_set_psys_freq. */
    method SetFreq(freq: nat)
      modifies this`divisor, this`qosFloor
      ensures if forceRatio then divisor == old(divisor) && qosFloor == old(qosFloor)
              else divisor == qosFloor == freq / FREQ_STEP
    {
      var ratio := freq / FREQ_STEP;
      if forceRatio { return; }
      if divisor == ratio && qosFloor == ratio { return; }
      divisor := ratio;
      qosFloor := ratio;
    }

    method AddConstraint(freq: nat)
      modifies this
      ensures View() == Apply(old(View()), Add(freq)) && constraints == [freq] + old(constraints)
      ensures efficient <= max && Meets(old(View())) ==> Meets(View())
      ensures minFreq != old(minFreq) && !forceRatio ==> divisor == qosFloor == minFreq / FREQ_STEP
    {
      if efficient <= max && Meets(View()) { KeepsMeeting(View(), Add(freq)); }
      constraints := [freq] + constraints;
      if freq > minFreq {
        minFreq := Min(freq, max);
        SetFreq(minFreq);
      }
    }

    method RemoveConstraint(i: nat)
      requires i < |constraints|
      modifies this
      ensures View() == Apply(old(View()), Remove(i)) && constraints == old(constraints)[..i] + old(constraints)[i + 1..]
      ensures efficient <= max && Meets(old(View())) ==> Meets(View())
      ensures minFreq != old(minFreq) && !forceRatio ==> divisor == qosFloor == minFreq / FREQ_STEP
    {
      if efficient <= max && Meets(View()) { KeepsMeeting(View(), Remove(i)); }
      var freq := constraints[i];
      constraints := Without(constraints, i);
      if freq >= minFreq {
        var largest := FindLargest();
        minFreq := Clamp(largest, efficient, max);
        SetFreq(minFreq);
      }
    }

    method FindLargest() returns (largest: nat)
      ensures largest == Largest(constraints)
    {
      largest := 0;
      var i := 0;
      while i < |constraints|
        invariant i <= |constraints|
        invariant Largest(constraints) == Max(largest, Largest(constraints[i..]))
      {
        assert constraints[i..][1..] == constraints[i + 1..];
        if constraints[i] > largest { largest := constraints[i]; }
        i := i + 1;
      }
    }
  }
}
