/**
 * Filter pieces several channel tools share word for word: the date-operator
 * rule of the performance tools, the date window of the trend tools, the
 * period buckets, integers interpolated into SQL text and ASCII case mapping.
 */
module Filters {
  import opened Sql

  // ---------------------------------------------------------------------
  // Integers written into SQL text (`f"... {days_back} ..."`)
  // ---------------------------------------------------------------------

  function DigitChar(d: nat): (c: char)
    requires d < 10
    ensures '0' <= c <= '9'
  {
    ('0' as int + d) as char
  }

  /** Python's `str(n)` for a non-negative integer. */
  function Digits(n: nat): (r: string)
    ensures r != []
    ensures forall i | 0 <= i < |r| :: '0' <= r[i] <= '9'
    decreases n
  {
    if n < 10 then [DigitChar(n)] else Digits(n / 10) + [DigitChar(n % 10)]
  }

  /** Reading a string of decimal digits back as a number. */
  function DigitsValue(s: string): nat
    requires forall i | 0 <= i < |s| :: '0' <= s[i] <= '9'
    decreases |s|
  {
    if s == [] then 0 else DigitsValue(s[..|s| - 1]) * 10 + (s[|s| - 1] as int - '0' as int)
  }

  /** The interpolated text denotes the number that was interpolated. */
  lemma {:induction false} DigitsRoundTrip(n: nat)
    ensures DigitsValue(Digits(n)) == n
    decreases n
  {
    if n >= 10 {
      var r := Digits(n);
      assert r[..|r| - 1] == Digits(n / 10);
      DigitsRoundTrip(n / 10);
    }
  }

  /** Python's `str(n)`. */
  function IntText(n: int): (r: string)
    ensures Plain(r) && r != []
    ensures n >= 0 ==> r == Digits(n)
    ensures n < 0 ==> r == "-" + Digits(-n)
  {
    if n < 0 then "-" + Digits(-n) else Digits(n)
  }

  /** An `Optional[int]` in an f-string: `None` prints as `None`. */
  function OptIntText(o: Option<int>): (r: string)
    ensures Plain(r) && r != []
    ensures o.None? ==> r == "None"
    ensures o.Some? ==> r == IntText(o.value)
  {
    if o.Some? then IntText(o.value) else "None"
  }

  /** An `Optional[str]` in an f-string: `None` prints as `None`. */
  function OptText(o: Option<string>): (r: string)
    ensures o.None? ==> r == "None"
    ensures o.Some? ==> r == o.value
  {
    if o.Some? then o.value else "None"
  }

  // ---------------------------------------------------------------------
  // Selected metric columns (`", ".join(metrics)`)
  // ---------------------------------------------------------------------

  /** `if metrics: ", ".join(metrics) else <default columns>`: None and [] are both falsy. */
  function MetricColumns(metrics: Option<seq<string>>, default: string): (r: string)
    ensures metrics.None? || metrics.value == [] ==> r == default
    ensures metrics.Some? && metrics.value != [] ==> r == Join(", ", metrics.value)
  {
    if metrics.Some? && metrics.value != [] then Join(", ", metrics.value) else default
  }

  /** Metric names free of `%`, so that interpolating them adds no placeholder. */
  predicate MetricsPlain(metrics: Option<seq<string>>) {
    metrics.Some? ==> forall i | 0 <= i < |metrics.value| :: Plain(metrics.value[i])
  }

  lemma {:induction false} JoinPlain(sep: string, xs: seq<string>)
    requires Plain(sep) && forall i | 0 <= i < |xs| :: Plain(xs[i])
    ensures Plain(Join(sep, xs))
    decreases |xs|
  {
    if |xs| >= 2 {
      var init := xs[..|xs| - 1];
      assert forall i | 0 <= i < |init| :: init[i] == xs[i];
      JoinPlain(sep, init);
      assert Plain(xs[|xs| - 1]);
    }
  }

  lemma MetricColumnsPlain(metrics: Option<seq<string>>, default: string)
    requires MetricsPlain(metrics) && Plain(default)
    ensures Plain(MetricColumns(metrics, default))
  {
    if metrics.Some? && metrics.value != [] {
      JoinPlain(", ", metrics.value);
    }
  }

  // ---------------------------------------------------------------------
  // ASCII case mapping (`str.lower()`, `str.upper()`)
  // ---------------------------------------------------------------------

  function LowerChar(c: char): char {
    if 'A' <= c <= 'Z' then (c as int + 32) as char else c
  }

  function UpperChar(c: char): char {
    if 'a' <= c <= 'z' then (c as int - 32) as char else c
  }

  function Lower(s: string): (r: string)
    ensures |r| == |s|
  {
    seq(|s|, i requires 0 <= i < |s| => LowerChar(s[i]))
  }

  function Upper(s: string): (r: string)
    ensures |r| == |s|
  {
    seq(|s|, i requires 0 <= i < |s| => UpperChar(s[i]))
  }

  /** Case mapping leaves `%` alone, so a plain word stays plain. */
  lemma UpperPlain(s: string)
    requires Plain(s)
    ensures Plain(Upper(s))
  {
    forall i | 0 <= i < |s|
      ensures Upper(s)[i] != '%'
    {
      assert s[i] != '%';
    }
  }

  /** `s.lower() == w` for a lower-case word `w`: the same letters, in either case. */
  lemma LowerIs(s: string, w: string)
    requires forall i | 0 <= i < |w| :: 'a' <= w[i] <= 'z'
    ensures Lower(s) == w <==>
      |s| == |w| && forall i | 0 <= i < |w| :: s[i] == w[i] || s[i] as int == w[i] as int - 32
  {
    if |s| == |w| && forall i | 0 <= i < |w| :: s[i] == w[i] || s[i] as int == w[i] as int - 32 {
      assert forall i | 0 <= i < |w| :: Lower(s)[i] == w[i];
    }
  }

  /** A word that lower-cases to `asc` upper-cases to `ASC`. */
  lemma UpperAsc(s: string)
    requires Lower(s) == "asc"
    ensures Upper(s) == "ASC"
  {
    LowerIs(s, "asc");
    assert forall i | 0 <= i < 3 :: Upper(s)[i] == "ASC"[i];
  }

  // ---------------------------------------------------------------------
  // Optional filters: `if x: where_conditions.append(text); params.append(x)`
  // ---------------------------------------------------------------------

  /**
   * One optional filter: its condition text and the argument whose test
   * decides whether it is appended. Most tools test truthiness (`if x:`);
   * some test `if x is not None:`, so that 0 still filters. A substring
   * filter binds `%x%`, the others bind the argument itself; a flag such as
   * `has_conversions` appends one of two texts and binds nothing; a fixed
   * condition that the list starts with is always there and binds nothing.
   */
  datatype Filter =
    | TextF(text: string, s: Option<string>)
    | LikeF(text: string, s: Option<string>)
    | IntF(text: string, n: Option<int>)
    | RealF(text: string, x: Option<real>)
    | SomeIntF(text: string, n: Option<int>)
    | SomeRealF(text: string, x: Option<real>)
    | FlagF(text: string, otherwise: string, b: Option<bool>)
    | FixedF(text: string)

  /** The test on the filter's argument. */
  predicate Given(f: Filter) {
    match f
    case TextF(_, s) => GivenText(s)
    case LikeF(_, s) => GivenText(s)
    case IntF(_, n) => GivenInt(n)
    case RealF(_, x) => GivenReal(x)
    case SomeIntF(_, n) => n.Some?
    case SomeRealF(_, x) => x.Some?
    case FlagF(_, _, b) => b.Some?
    case FixedF(_) => true
  }

  /** The text appended for a filter that applies: a false flag appends its second text. */
  function CondText(f: Filter): string
    requires Given(f)
  {
    if f.FlagF? && !f.b.value then f.otherwise else f.text
  }

  /** The condition a filter contributes: one when its test passes, none otherwise. */
  function FilterCond(f: Filter): seq<Cond> {
    if Given(f) then [Cond(CondText(f), FilterArg(f))] else []
  }

  /** The conditions of a run of filters, in order. */
  function Conds(fs: seq<Filter>): seq<Cond>
    decreases |fs|
  {
    if fs == [] then [] else Conds(fs[..|fs| - 1]) + FilterCond(fs[|fs| - 1])
  }

  /** A text filter binds its value when it is non-empty. */
  function TextArg(o: Option<string>): seq<Param> {
    if GivenText(o) then [PText(o.value)] else []
  }

  /** A substring filter binds `%value%` when the value is non-empty. */
  function LikeArg(o: Option<string>): seq<Param> {
    if GivenText(o) then [Like(o.value)] else []
  }

  /** An integer threshold binds its value when it is non-zero. */
  function IntArg(o: Option<int>): seq<Param> {
    if GivenInt(o) then [PInt(o.value)] else []
  }

  /** A float threshold binds its value when it is non-zero. */
  function RealArg(o: Option<real>): seq<Param> {
    if GivenReal(o) then [PReal(o.value)] else []
  }

  /** An `is not None` integer threshold binds its value, zero included. */
  function SomeIntArg(o: Option<int>): seq<Param> {
    if o.Some? then [PInt(o.value)] else []
  }

  /** An `is not None` float threshold binds its value, zero included. */
  function SomeRealArg(o: Option<real>): seq<Param> {
    if o.Some? then [PReal(o.value)] else []
  }

  /** The values a filter binds, stated per kind of argument. */
  function FilterArg(f: Filter): seq<Param> {
    match f
    case TextF(_, s) => TextArg(s)
    case LikeF(_, s) => LikeArg(s)
    case IntF(_, n) => IntArg(n)
    case RealF(_, x) => RealArg(x)
    case SomeIntF(_, n) => SomeIntArg(n)
    case SomeRealF(_, x) => SomeRealArg(x)
    case FlagF(_, _, _) => []
    case FixedF(_) => []
  }

  /** The values of a run of filters, in order. */
  function Values(fs: seq<Filter>): seq<Param>
    decreases |fs|
  {
    if fs == [] then [] else Values(fs[..|fs| - 1]) + FilterArg(fs[|fs| - 1])
  }

  /** The condition and values of a single filter. */
  lemma Single(f: Filter)
    ensures Conds([f]) == FilterCond(f)
    ensures Values([f]) == FilterArg(f)
  {
    assert [f][..0] == [];
  }

  /** The conditions and values of two filters tried in a row. */
  lemma Pair(f: Filter, g: Filter)
    ensures Conds([f, g]) == FilterCond(f) + FilterCond(g)
    ensures Values([f, g]) == FilterArg(f) + FilterArg(g)
  {
    assert [f, g][..1] == [f];
    Single(f);
  }

  /** The conditions and values of three filters tried in a row. */
  lemma Triple(f: Filter, g: Filter, h: Filter)
    ensures Conds([f, g, h]) == FilterCond(f) + FilterCond(g) + FilterCond(h)
    ensures Values([f, g, h]) == FilterArg(f) + FilterArg(g) + FilterArg(h)
  {
    assert [f, g, h][..2] == [f, g];
    Pair(f, g);
  }

  /** The values of four filters tried in a row. */
  lemma Quad(f: Filter, g: Filter, h: Filter, k: Filter)
    ensures Values([f, g, h, k]) == FilterArg(f) + FilterArg(g) + FilterArg(h) + FilterArg(k)
  {
    assert [f, g, h, k][..3] == [f, g, h];
    Triple(f, g, h);
  }

  /** Trying one run of filters and then another. */
  lemma Concat(a: seq<Filter>, b: seq<Filter>)
    ensures Conds(a + b) == Conds(a) + Conds(b)
    ensures Values(a + b) == Values(a) + Values(b)
  {
    ConcatConds(a, b);
    ConcatValues(a, b);
  }

  lemma {:induction false} ConcatConds(a: seq<Filter>, b: seq<Filter>)
    ensures Conds(a + b) == Conds(a) + Conds(b)
    decreases |b|
  {
    if b == [] {
      assert a + b == a;
    } else {
      var init := b[..|b| - 1];
      assert (a + b)[..|a + b| - 1] == a + init;
      assert (a + b)[|a + b| - 1] == b[|b| - 1];
      ConcatConds(a, init);
    }
  }

  lemma {:induction false} ConcatValues(a: seq<Filter>, b: seq<Filter>)
    ensures Values(a + b) == Values(a) + Values(b)
    decreases |b|
  {
    if b == [] {
      assert a + b == a;
    } else {
      var init := b[..|b| - 1];
      assert (a + b)[..|a + b| - 1] == a + init;
      assert (a + b)[|a + b| - 1] == b[|b| - 1];
      ConcatValues(a, init);
    }
  }

  /**
   * Zero passes an `is not None` test but fails a truthiness test: the
   * first kind of threshold still filters on 0, the second adds nothing.
   */
  lemma ZeroThreshold(t: string)
    ensures FilterCond(SomeIntF(t, Some(0))) == [Cond(t, [PInt(0)])]
    ensures FilterCond(SomeRealF(t, Some(0.0))) == [Cond(t, [PReal(0.0)])]
    ensures FilterCond(IntF(t, Some(0))) == [] && FilterCond(RealF(t, Some(0.0))) == []
  {
  }

  /**
   * A filter binds something only when its test passes, and then exactly
   * one value, unless it is a flag or a fixed condition, which never bind.
   */
  lemma FilterArgCases(f: Filter)
    ensures !Given(f) ==> FilterArg(f) == []
    ensures Given(f) && !f.FlagF? && !f.FixedF? ==> |FilterArg(f)| == 1
    ensures f.FlagF? || f.FixedF? ==> FilterArg(f) == []
  {
  }

  /**
   * The conditions bind exactly the values of the filters that apply, in
   * argument order.
   */
  lemma {:induction false} CondsValues(fs: seq<Filter>)
    ensures Args(Conds(fs)) == Values(fs)
    decreases |fs|
  {
    if fs != [] {
      var init, f := fs[..|fs| - 1], fs[|fs| - 1];
      CondsValues(init);
      ArgsConcat(Conds(init), FilterCond(f));
      FilterArgCases(f);
      if Given(f) {
        assert [Cond(CondText(f), FilterArg(f))][..0] == [];
      }
    }
  }

  /** Without flags or fixed conditions, there is no condition exactly when there is no value. */
  lemma {:induction false} CondsEmpty(fs: seq<Filter>)
    requires forall i | 0 <= i < |fs| :: !fs[i].FlagF? && !fs[i].FixedF?
    ensures Conds(fs) == [] <==> Values(fs) == []
    decreases |fs|
  {
    if fs != [] {
      var init, f := fs[..|fs| - 1], fs[|fs| - 1];
      assert forall i | 0 <= i < |init| :: init[i] == fs[i];
      CondsEmpty(init);
      FilterArgCases(f);
    }
  }

  /** A condition text with one placeholder that does not end inside an escape. */
  predicate OneHole(t: string) {
    Holes(t) == 1 && ClosedEnd(t)
  }

  /** The filter's texts hold as many placeholders as it binds values. */
  predicate FilterSound(f: Filter) {
    if f.FlagF? then Plain(f.text) && Plain(f.otherwise) && f.text != [] && f.otherwise != []
    else if f.FixedF? then Plain(f.text) && f.text != []
    else OneHole(f.text)
  }

  lemma FilterCondSound(f: Filter)
    requires FilterSound(f)
    ensures AllSound(FilterCond(f))
  {
    FilterArgCases(f);
    if (f.FlagF? || f.FixedF?) && Given(f) {
      PlainHoles(CondText(f));
    }
  }

  /** Filters whose texts are sound give sound conditions. */
  lemma {:induction false} CondsSound(fs: seq<Filter>)
    requires forall i | 0 <= i < |fs| :: FilterSound(fs[i])
    ensures AllSound(Conds(fs))
    decreases |fs|
  {
    if fs != [] {
      var init, f := fs[..|fs| - 1], fs[|fs| - 1];
      assert forall i | 0 <= i < |init| :: init[i] == fs[i];
      CondsSound(init);
      FilterCondSound(f);
      AllSoundConcat(Conds(init), FilterCond(f));
    }
  }

  /**
   * One `if x: conditions.append(text); params.append(x)` step: the
   * condition list stays the texts of the filters applied so far, and the
   * parameter list, after whatever it held before (`base`: the WHERE
   * values, for a HAVING list), their values.
   */
  method AppendFilter(f: Filter, conditions: seq<string>, params: seq<Param>,
                      ghost base: seq<Param>, ghost done: seq<Filter>)
    returns (conditions': seq<string>, params': seq<Param>, ghost done': seq<Filter>)
    requires conditions == Texts(Conds(done)) && params == base + Args(Conds(done))
    ensures done' == done + [f]
    ensures conditions' == Texts(Conds(done')) && params' == base + Args(Conds(done'))
  {
    conditions', params', done' := conditions, params, done + [f];
    assert done'[..|done'| - 1] == done && done'[|done'| - 1] == f;
    var step := FilterCond(f);
    assert Conds(done') == Conds(done) + step;
    if Given(f) {
      var c := Cond(CondText(f), FilterArg(f));
      assert step == [c];
      conditions' := conditions' + [c.text];
      params' := params' + c.args;
      Push(Conds(done), c);
    } else {
      assert step == [];
      assert Conds(done) + step == Conds(done);
    }
  }

  // ---------------------------------------------------------------------
  // The date-operator rule of the performance tools
  // ---------------------------------------------------------------------

  /** `time_operator: Literal['>', '<', '>=', '<=', '=', 'between']`. */
  datatype TimeOp = Gt | Lt | Ge | Le | Eq | Between

  function OpText(op: TimeOp): (r: string)
    ensures Plain(r) && r != []
  {
    match op
    case Gt => ">"
    case Lt => "<"
    case Ge => ">="
    case Le => "<="
    case Eq => "="
    case Between => "between"
  }

  const DateBetween := "date BETWEEN " + P + " AND " + P

  /** `f"date {time_operator} %s"`. */
  function DateOp(op: TimeOp): string {
    "date " + OpText(op) + " " + P
  }

  lemma DateTexts(op: TimeOp)
    ensures Holes(DateBetween) == 2 && ClosedEnd(DateBetween)
    ensures Holes(DateOp(op)) == 1 && ClosedEnd(DateOp(op))
  {
    TwoSlots("date BETWEEN ", " AND ", "");
    assert DateBetween == "date BETWEEN " + P + " AND " + P + "";
    OneSlot("date " + OpText(op) + " ", "");
    assert DateOp(op) == "date " + OpText(op) + " " + P + "";
  }

  /**
   * Both bounds and `between` give one BETWEEN condition with two values;
   * otherwise a start date alone is compared with the operator; an end date
   * without a start date adds nothing.
   */
  function DateRule(from: Option<string>, to: Option<string>, op: TimeOp): (cs: seq<Cond>)
    ensures |cs| <= 1 && AllSound(cs)
  {
    DateTexts(op);
    if GivenText(from) && GivenText(to) && op == Between then
      [Cond(DateBetween, [PText(from.value), PText(to.value)])]
    else if GivenText(from) then
      [Cond(DateOp(op), [PText(from.value)])]
    else
      []
  }

  /** Which dates the rule binds, for every combination of arguments. */
  lemma DateRuleCases(from: Option<string>, to: Option<string>, op: TimeOp)
    ensures var cs := DateRule(from, to, op);
      && (cs == [] <==> !GivenText(from))
      && (|Args(cs)| == 2 <==> GivenText(from) && GivenText(to) && op == Between)
      && (GivenText(from) && GivenText(to) && op == Between ==>
            cs == [Cond(DateBetween, [PText(from.value), PText(to.value)])])
      && (GivenText(from) && !(GivenText(to) && op == Between) ==>
            cs == [Cond(DateOp(op), [PText(from.value)])] && DateOp(op) != DateBetween)
  {
    var cs := DateRule(from, to, op);
    if cs != [] {
      assert cs[..0] == [];
      assert Args(cs) == cs[0].args;
    }
    if GivenText(from) && !(GivenText(to) && op == Between) {
      var t := DateOp(op);
      assert t[5] == OpText(op)[0];
      assert DateBetween[5] == 'B';
    }
  }

  /**
   * The date block of the performance tools: the `if ... elif date_from:`
   * step appends the rule's texts and values to the two lists.
   */
  method AppendDateRule(from: Option<string>, to: Option<string>, op: TimeOp,
                        conditions: seq<string>, params: seq<Param>, ghost before: seq<Cond>)
    returns (conditions': seq<string>, params': seq<Param>)
    requires conditions == Texts(before) && params == Args(before)
    ensures conditions' == Texts(before + DateRule(from, to, op))
    ensures params' == Args(before + DateRule(from, to, op))
  {
    conditions', params' := conditions, params;
    if GivenText(from) && GivenText(to) && op == Between {
      Push(before, Cond(DateBetween, [PText(from.value), PText(to.value)]));
      conditions' := conditions' + [DateBetween];
      params' := params' + [PText(from.value), PText(to.value)];
    } else if GivenText(from) {
      var t := "date " + OpText(op) + " " + P;
      Push(before, Cond(t, [PText(from.value)]));
      conditions' := conditions' + [t];
      params' := params' + [PText(from.value)];
    } else {
      assert before + DateRule(from, to, op) == before;
    }
  }

  // ---------------------------------------------------------------------
  // The date window of the trend and comparison tools
  // ---------------------------------------------------------------------

  const DateFrom := "date >= " + P
  const DateTo := "date <= " + P

  /** `f"date >= CURRENT_DATE - INTERVAL '{days_back} {unit}'"`. */
  function DaysBack(daysBack: Option<int>, unit: string): string {
    "date >= CURRENT_DATE - INTERVAL '" + OptIntText(daysBack) + " " + unit + "'"
  }

  lemma WindowTexts(daysBack: Option<int>, unit: string)
    requires Plain(unit)
    ensures Holes(DateFrom) == 1 && ClosedEnd(DateFrom)
    ensures Holes(DateTo) == 1 && ClosedEnd(DateTo)
    ensures Plain(DaysBack(daysBack, unit)) && Holes(DaysBack(daysBack, unit)) == 0
  {
    OneSlot("date >= ", "");
    OneSlot("date <= ", "");
    assert DateFrom == "date >= " + P + "";
    assert DateTo == "date <= " + P + "";
    assert Plain("date >= CURRENT_DATE - INTERVAL '");
    PlainHoles(DaysBack(daysBack, unit));
  }

  /**
   * `date_from` binds `date >= %s`; with neither bound the window falls back
   * to the last `days_back` days, written into the text; `date_to` binds
   * `date <= %s` after it.
   */
  function Window(from: Option<string>, to: Option<string>, daysBack: Option<int>, unit: string): (cs: seq<Cond>)
    requires Plain(unit)
    ensures AllSound(cs)
  {
    WindowStart(from, to, daysBack, unit) + WindowEnd(to)
  }

  /** The `if date_from / elif not date_to` half of the window. */
  function WindowStart(from: Option<string>, to: Option<string>, daysBack: Option<int>, unit: string): (cs: seq<Cond>)
    requires Plain(unit)
    ensures AllSound(cs) && |cs| <= 1
  {
    WindowTexts(daysBack, unit);
    if GivenText(from) then [Cond(DateFrom, [PText(from.value)])]
    else if !GivenText(to) then [Cond(DaysBack(daysBack, unit), [])]
    else []
  }

  /** The `if date_to` half of the window. */
  function WindowEnd(to: Option<string>): (cs: seq<Cond>)
    ensures AllSound(cs) && |cs| <= 1
  {
    WindowTexts(None, "days");
    if GivenText(to) then [Cond(DateTo, [PText(to.value)])] else []
  }

  /**
   * The window binds the start date before the end date, and the one
   * condition without a parameter (the day window) appears exactly when
   * neither date is given.
   */
  lemma WindowCases(from: Option<string>, to: Option<string>, daysBack: Option<int>, unit: string)
    requires Plain(unit)
    ensures var cs := Window(from, to, daysBack, unit);
      && Args(cs) == TextArg(from) + TextArg(to)
      && ((exists c | c in cs :: c.args == []) <==> !GivenText(from) && !GivenText(to))
      && (!GivenText(from) && !GivenText(to) ==> cs == [Cond(DaysBack(daysBack, unit), [])])
      && 1 <= |cs| <= 2
  {
    var a := WindowStart(from, to, daysBack, unit);
    var b := WindowEnd(to);
    ArgsConcat(a, b);
    assert a != [] ==> a[..0] == [];
    assert b != [] ==> b[..0] == [];
  }

  /**
   * The window step of the trend tools: the `if date_from / elif not
   * date_to / if date_to` block appends the window's texts and values to
   * the two lists.
   */
  method AppendWindow(from: Option<string>, to: Option<string>, daysBack: Option<int>, unit: string,
                      conditions: seq<string>, params: seq<Param>, ghost before: seq<Cond>)
    returns (conditions': seq<string>, params': seq<Param>)
    requires Plain(unit)
    requires conditions == Texts(before) && params == Args(before)
    ensures conditions' == Texts(before + Window(from, to, daysBack, unit))
    ensures params' == Args(before + Window(from, to, daysBack, unit))
  {
    ghost var mid := before + WindowStart(from, to, daysBack, unit);
    conditions', params' := AppendWindowStart(from, to, daysBack, unit, conditions, params, before);
    conditions', params' := AppendWindowEnd(to, conditions', params', mid);
    assert mid + WindowEnd(to) == before + Window(from, to, daysBack, unit);
  }

  method AppendWindowStart(from: Option<string>, to: Option<string>, daysBack: Option<int>, unit: string,
                           conditions: seq<string>, params: seq<Param>, ghost before: seq<Cond>)
    returns (conditions': seq<string>, params': seq<Param>)
    requires Plain(unit)
    requires conditions == Texts(before) && params == Args(before)
    ensures conditions' == Texts(before + WindowStart(from, to, daysBack, unit))
    ensures params' == Args(before + WindowStart(from, to, daysBack, unit))
  {
    if GivenText(from) {
      var c := Cond(DateFrom, [PText(from.value)]);
      Push(before, c);
      conditions', params' := conditions + [DateFrom], params + [PText(from.value)];
    } else if !GivenText(to) {
      var c := Cond(DaysBack(daysBack, unit), []);
      Push(before, c);
      conditions', params' := conditions + [c.text], params;
      assert params == params + c.args;
    } else {
      conditions', params' := conditions, params;
      assert before + [] == before;
    }
  }

  method AppendWindowEnd(to: Option<string>, conditions: seq<string>, params: seq<Param>, ghost before: seq<Cond>)
    returns (conditions': seq<string>, params': seq<Param>)
    requires conditions == Texts(before) && params == Args(before)
    ensures conditions' == Texts(before + WindowEnd(to))
    ensures params' == Args(before + WindowEnd(to))
  {
    if GivenText(to) {
      var c := Cond(DateTo, [PText(to.value)]);
      Push(before, c);
      conditions', params' := conditions + [DateTo], params + [PText(to.value)];
    } else {
      conditions', params' := conditions, params;
      assert before + [] == before;
    }
  }

  // ---------------------------------------------------------------------
  // Period buckets
  // ---------------------------------------------------------------------

  /** `period_group` and `period_format` of the trend tools. */
  datatype Bucket = Bucket(group: string, format: string)

  function PeriodBucket(period: string): Bucket {
    var group :=
      if period == "weekly" then "DATE_TRUNC('week', date)"
      else if period == "monthly" then "DATE_TRUNC('month', date)"
      else "date";
    var pattern := if period == "monthly" then "'YYYY-MM'" else "'YYYY-MM-DD'";
    Bucket(group, "TO_CHAR(" + group + ", " + pattern + ")")
  }

  lemma PeriodBucketPlain(period: string)
    ensures Plain(PeriodBucket(period).group) && Plain(PeriodBucket(period).format)
  {
    if period == "weekly" {
      assert Plain("DATE_TRUNC('week', date)");
    } else if period == "monthly" {
      assert Plain("DATE_TRUNC('month', date)");
    }
    assert Plain("TO_CHAR(") && Plain("'YYYY-MM'") && Plain("'YYYY-MM-DD'");
  }

  /**
   * Weekly buckets are labelled by the week's first day, monthly buckets by
   * the month, and every other period (daily and anything unexpected)
   * buckets by day.
   */
  lemma PeriodBucketCases(period: string)
    ensures var b := PeriodBucket(period);
      && (period == "weekly" ==>
            b.group == "DATE_TRUNC('week', date)" && b.format == "TO_CHAR(" + b.group + ", 'YYYY-MM-DD')")
      && (period == "monthly" ==>
            b.group == "DATE_TRUNC('month', date)" && b.format == "TO_CHAR(" + b.group + ", 'YYYY-MM')")
      && (period != "weekly" && period != "monthly" ==>
            b == PeriodBucket("daily") && b.group == "date" && b.format == "TO_CHAR(date, 'YYYY-MM-DD')")
  {
    var b := PeriodBucket(period);
    FormatText(b.group);
    if period != "weekly" && period != "monthly" {
      assert b.group == "date";
      FormatText("date");
      assert "TO_CHAR(" + "date" + ", 'YYYY-MM-DD')" == "TO_CHAR(date, 'YYYY-MM-DD')";
    }
  }

  lemma FormatText(g: string)
    ensures "TO_CHAR(" + g + ", " + "'YYYY-MM-DD'" + ")" == "TO_CHAR(" + g + ", 'YYYY-MM-DD')"
    ensures "TO_CHAR(" + g + ", " + "'YYYY-MM'" + ")" == "TO_CHAR(" + g + ", 'YYYY-MM')"
  {
    assert ", " + "'YYYY-MM-DD'" + ")" == ", 'YYYY-MM-DD')";
    assert ", " + "'YYYY-MM'" + ")" == ", 'YYYY-MM')";
  }
}
