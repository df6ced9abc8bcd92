/** The traffic-light automaton that `update_traffic_light` drives (app.py:124-140):
    the fixed transition table, the lamps each firing shows and the delay it arms
    for the next firing. */
module Signal {

  /** The values of `traffic_state`, named as the strings the source stores.
      The state names the phase that the NEXT firing will show. */
  datatype Phase = RED | GREEN | YELLOW

  /** Fill colours of the three lamps on the canvas. */
  datatype Colour = Red | Yellow | Green | Gray | DarkRed | DarkGreen

  /** The displayed colours of the red, yellow and green lamp, in that order. */
  datatype Lamps = Lamps(red: Colour, yellow: Colour, green: Colour)

  /** The colours the lamps have before any session and after a stop that
      cancelled a pending timer (app.py:35-37, 96). */
  const IdleLamps: Lamps := Lamps(DarkRed, Gray, DarkGreen)

  predicate IsLit(c: Colour) {
    c == Red || c == Yellow || c == Green
  }

  /** The number of lamps that are lit. */
  function LitCount(l: Lamps): nat {
    (if IsLit(l.red) then 1 else 0) + (if IsLit(l.yellow) then 1 else 0) + (if IsLit(l.green) then 1 else 0)
  }

  /** The phase `traffic_state` moves to when a firing happens in phase `p`. */
  function Next(p: Phase): (q: Phase)
    ensures q != p
  {
    match p
    case RED => GREEN
    case GREEN => YELLOW
    case YELLOW => RED
  }

  /** The phase that `Next` maps onto `p`. */
  function Prev(p: Phase): (q: Phase)
    ensures Next(q) == p
  {
    match p
    case RED => YELLOW
    case GREEN => RED
    case YELLOW => GREEN
  }

  /** The lamps a firing in phase `p` shows: only the lamp of phase `p` is lit,
      in its own colour, and the other two are gray. */
  function Shown(p: Phase): (l: Lamps)
    ensures LitCount(l) == 1
    ensures (p == RED <==> l.red == Red) && (p == YELLOW <==> l.yellow == Yellow) && (p == GREEN <==> l.green == Green)
  {
    match p
    case RED => Lamps(Red, Gray, Gray)
    case GREEN => Lamps(Gray, Gray, Green)
    case YELLOW => Lamps(Gray, Yellow, Gray)
  }

  /** The delay in milliseconds that a firing in phase `p` arms for the next
      firing. Both the red and the green hold use `green_duration`. */
  function HoldMs(p: Phase, greenDuration: int, yellowDuration: int): int {
    if p == YELLOW then yellowDuration * 1000 else greenDuration * 1000
  }

  /** The length of one red-green-yellow cycle in milliseconds. */
  function CycleMs(greenDuration: int, yellowDuration: int): (ms: int)
    ensures ms == (2 * greenDuration + yellowDuration) * 1000
  {
    HoldMs(RED, greenDuration, yellowDuration) + HoldMs(GREEN, greenDuration, yellowDuration)
      + HoldMs(YELLOW, greenDuration, yellowDuration)
  }

  /** The phase `traffic_state` holds after `n` firings starting in phase `p`. */
  function Advance(p: Phase, n: nat): Phase
    decreases n
  {
    if n == 0 then p else Advance(Next(p), n - 1)
  }

  /** The lamps shown by `n` successive firings starting in phase `p`. */
  function LampTrace(p: Phase, n: nat): (t: seq<Lamps>)
    ensures |t| == n
    decreases n
  {
    if n == 0 then [] else [Shown(p)] + LampTrace(Next(p), n - 1)
  }

  /** The delays armed by `n` successive firings starting in phase `p`. */
  function Schedule(p: Phase, n: nat, greenDuration: int, yellowDuration: int): (d: seq<int>)
    ensures |d| == n
    decreases n
  {
    if n == 0 then [] else [HoldMs(p, greenDuration, yellowDuration)] + Schedule(Next(p), n - 1, greenDuration, yellowDuration)
  }

  function Sum(s: seq<int>): int
    decreases |s|
  {
    if s == [] then 0 else s[0] + Sum(s[1..])
  }

  /** The time of the `i`-th firing, counted from a firing in phase `p`. */
  function Elapsed(p: Phase, i: nat, greenDuration: nat, yellowDuration: nat): nat
    decreases i
  {
    if i == 0 then 0 else HoldMs(p, greenDuration, yellowDuration) + Elapsed(Next(p), i - 1, greenDuration, yellowDuration)
  }

  /** The lamps on show `t` milliseconds after a firing in phase `p`, when every
      firing arms the next one as `update_traffic_light` does. */
  function ShownAt(p: Phase, t: nat, greenDuration: nat, yellowDuration: nat): Lamps
    requires greenDuration > 0 && yellowDuration > 0
    decreases t
  {
    var hold := HoldMs(p, greenDuration, yellowDuration);
    if t < hold then Shown(p) else ShownAt(Next(p), t - hold, greenDuration, yellowDuration)
  }

  /** The red and the green hold are both `green_duration * 1000` ms, the
      yellow hold is `yellow_duration * 1000` ms. */
  lemma HoldTimes(greenDuration: int, yellowDuration: int)
    ensures HoldMs(RED, greenDuration, yellowDuration) == HoldMs(GREEN, greenDuration, yellowDuration)
    ensures HoldMs(GREEN, greenDuration, yellowDuration) == greenDuration * 1000
    ensures HoldMs(YELLOW, greenDuration, yellowDuration) == yellowDuration * 1000
  {
  }

  /** The table is a single cycle of length three: three firings return to the
      starting phase, and one or two firings never do. */
  lemma NextIsCycle(p: Phase)
    ensures Next(Next(Next(p))) == p
    ensures Next(Next(p)) != p
    ensures Prev(Next(p)) == p
  {
  }

  /** Every third firing lands on the starting phase again. */
  lemma {:induction false} AdvanceByCycles(p: Phase, k: nat)
    ensures Advance(p, 3 * k) == p
    decreases k
  {
    if k > 0 {
      calc {
        Advance(p, 3 * k);
        Advance(Next(p), 3 * k - 1);
        Advance(Next(Next(p)), 3 * k - 2);
        Advance(Next(Next(Next(p))), 3 * (k - 1));
        { NextIsCycle(p); }
        Advance(p, 3 * (k - 1));
        { AdvanceByCycles(p, k - 1); }
        p;
      }
    }
  }

  /** One firing more is one more step of the table. */
  lemma {:induction false} AdvanceStep(p: Phase, n: nat)
    ensures Advance(p, n + 1) == Next(Advance(p, n))
    decreases n
  {
    if n > 0 {
      AdvanceStep(Next(p), n - 1);
    }
  }

  /** The phase after `n` firings depends only on `n` modulo three. */
  lemma {:induction false} AdvanceModThree(p: Phase, n: nat)
    ensures Advance(p, n) == Advance(p, n % 3)
    decreases n
  {
    if n >= 3 {
      calc {
        Advance(p, n);
        Advance(Next(p), n - 1);
        Advance(Next(Next(p)), n - 2);
        Advance(Next(Next(Next(p))), n - 3);
        { NextIsCycle(p); }
        Advance(p, n - 3);
        { AdvanceModThree(p, n - 3); }
        Advance(p, (n - 3) % 3);
      }
    }
  }

  /** Starting from RED, the `i`-th firing shows red, green, yellow, red, ...
      with no phase skipped or repeated. */
  lemma {:induction false} LampTraceFromRed(n: nat, i: nat)
    requires i < n
    ensures LampTrace(RED, n)[i] == [Shown(RED), Shown(GREEN), Shown(YELLOW)][i % 3]
  {
    LampTraceAt(RED, n, i);
    AdvanceModThree(RED, i);
  }

  /** The `i`-th lamps of a trace are those of the `i`-th advanced phase. */
  lemma {:induction false} LampTraceAt(p: Phase, n: nat, i: nat)
    requires i < n
    ensures LampTrace(p, n)[i] == Shown(Advance(p, i))
    decreases n
  {
    if i > 0 {
      LampTraceAt(Next(p), n - 1, i - 1);
    }
  }

  /** The `i`-th delay of a schedule is the hold of the `i`-th advanced phase. */
  lemma {:induction false} ScheduleAt(p: Phase, n: nat, i: nat, greenDuration: int, yellowDuration: int)
    requires i < n
    ensures Schedule(p, n, greenDuration, yellowDuration)[i] == HoldMs(Advance(p, i), greenDuration, yellowDuration)
    decreases n
  {
    if i > 0 {
      ScheduleAt(Next(p), n - 1, i - 1, greenDuration, yellowDuration);
    }
  }

  lemma {:induction false} SumAppend(a: seq<int>, b: seq<int>)
    ensures Sum(a + b) == Sum(a) + Sum(b)
    decreases |a|
  {
    if a == [] {
      assert a + b == b;
    } else {
      assert (a + b)[1..] == a[1..] + b;
      SumAppend(a[1..], b);
    }
  }

  lemma {:induction false} ScheduleSplit(p: Phase, m: nat, n: nat, greenDuration: int, yellowDuration: int)
    ensures Schedule(p, m + n, greenDuration, yellowDuration)
         == Schedule(p, m, greenDuration, yellowDuration) + Schedule(Advance(p, m), n, greenDuration, yellowDuration)
    decreases m
  {
    if m > 0 {
      ScheduleSplit(Next(p), m - 1, n, greenDuration, yellowDuration);
    }
  }

  /** Whatever the starting phase, `k` full cycles of firings arm delays that
      add up to `k` cycle lengths. */
  lemma {:induction false} ScheduleCycles(p: Phase, k: nat, greenDuration: int, yellowDuration: int)
    ensures Sum(Schedule(p, 3 * k, greenDuration, yellowDuration)) == k * CycleMs(greenDuration, yellowDuration)
    decreases k
  {
    if k > 0 {
      var g, y := greenDuration, yellowDuration;
      var one := Schedule(p, 3, g, y);
      assert one == [HoldMs(p, g, y), HoldMs(Next(p), g, y), HoldMs(Next(Next(p)), g, y)];
      assert Sum(one) == CycleMs(g, y) by {
        NextIsCycle(p);
        assert one[1..][1..] == [HoldMs(Next(Next(p)), g, y)];
        assert Sum(one[1..][1..]) == HoldMs(Next(Next(p)), g, y);
      }
      ScheduleSplit(p, 3, 3 * (k - 1), g, y);
      assert Advance(p, 3) == p by { AdvanceByCycles(p, 1); }
      SumAppend(one, Schedule(p, 3 * (k - 1), g, y));
      ScheduleCycles(p, k - 1, g, y);
    }
  }

  /** With the source's defaults the firings from RED arm 10000, 10000 and 3000 ms,
      and one cycle takes 23000 ms. */
  lemma DefaultSchedule()
    ensures Schedule(RED, 3, 10, 3) == [10000, 10000, 3000]
    ensures CycleMs(10, 3) == 23000
  {
  }

  /** The lamps shown repeat with the period of one cycle. */
  lemma ShownAtPeriodic(p: Phase, t: nat, greenDuration: nat, yellowDuration: nat)
    requires greenDuration > 0 && yellowDuration > 0
    ensures ShownAt(p, t + CycleMs(greenDuration, yellowDuration), greenDuration, yellowDuration)
         == ShownAt(p, t, greenDuration, yellowDuration)
  {
    var g, y := greenDuration, yellowDuration;
    var p1, p2 := Next(p), Next(Next(p));
    var h0, h1, h2 := HoldMs(p, g, y), HoldMs(p1, g, y), HoldMs(p2, g, y);
    NextIsCycle(p);
    assert h0 + h1 + h2 == CycleMs(g, y);
    var t0 := t + CycleMs(g, y);
    assert ShownAt(p, t0, g, y) == ShownAt(p1, t0 - h0, g, y);
    assert ShownAt(p1, t0 - h0, g, y) == ShownAt(p2, t0 - h0 - h1, g, y);
    assert ShownAt(p2, t0 - h0 - h1, g, y) == ShownAt(p, t, g, y);
  }

  /** The timeline with the defaults: red until 10 s, green until 20 s, yellow
      until 23 s, then red again. */
  lemma DefaultTimeline()
    ensures ShownAt(RED, 9900, 10, 3) == Shown(RED)
    ensures ShownAt(RED, 10100, 10, 3) == Shown(GREEN)
    ensures ShownAt(RED, 20100, 10, 3) == Shown(YELLOW)
    ensures ShownAt(RED, 23100, 10, 3) == Shown(RED)
  {
  }

  /** The time of the `i`-th firing is the sum of the delays the firings before
      it armed. */
  lemma {:induction false} ElapsedIsScheduleSum(p: Phase, i: nat, greenDuration: nat, yellowDuration: nat)
    ensures Elapsed(p, i, greenDuration, yellowDuration) == Sum(Schedule(p, i, greenDuration, yellowDuration))
    decreases i
  {
    if i > 0 {
      var g, y := greenDuration, yellowDuration;
      assert Schedule(p, i, g, y)[1..] == Schedule(Next(p), i - 1, g, y);
      ElapsedIsScheduleSum(Next(p), i - 1, g, y);
    }
  }

  /** The time line agrees with the firings: from the `i`-th firing until its
      hold is over, the lamps on show are those of the phase reached by `i`
      steps. */
  lemma {:induction false} ShownAtSchedule(p: Phase, i: nat, d: nat, greenDuration: nat, yellowDuration: nat)
    requires greenDuration > 0 && yellowDuration > 0
    requires d < HoldMs(Advance(p, i), greenDuration, yellowDuration)
    ensures ShownAt(p, Elapsed(p, i, greenDuration, yellowDuration) + d, greenDuration, yellowDuration)
         == Shown(Advance(p, i))
    decreases i
  {
    if i > 0 {
      ShownAtSchedule(Next(p), i - 1, d, greenDuration, yellowDuration);
    }
  }
}
