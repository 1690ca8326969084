/**
 * The psycopg2 side of every tool: SQL text with `%s` placeholders, the
 * parameter list that `cursor.execute(query, params)` binds to them, and the
 * building blocks the tools share (optional filters, clause lists joined with
 * " AND ", ASCII case mapping, integer interpolation).
 *
 * `Bind` is the placeholder substitution psycopg2 performs: the i-th `%s` takes
 * the i-th parameter, `%%` stands for one `%`, and a count mismatch is an error.
 * Everything else in the project is proved against it.
 */
module Sql {

  datatype Option<T> = None | Some(value: T)

  /** A value appended to `params`. Dates travel as text, as in the tools. */
  datatype Param = PText(text: string) | PInt(n: int) | PReal(x: real) | PNull

  // ---------------------------------------------------------------------
  // Optional arguments and Python truthiness
  // ---------------------------------------------------------------------

  /** `if x:` on an optional string: present and non-empty. */
  predicate GivenText(o: Option<string>) { o.Some? && o.value != "" }

  /** `if x:` on an optional int: present and non-zero. */
  predicate GivenInt(o: Option<int>) { o.Some? && o.value != 0 }

  /** `if x:` on an optional float: present and non-zero. */
  predicate GivenReal(o: Option<real>) { o.Some? && o.value != 0.0 }

  /** The parameter an optional int becomes (`None` is bound as SQL NULL). */
  function IntParam(o: Option<int>): (p: Param)
    ensures o.Some? ==> p == PInt(o.value)
    ensures o.None? ==> p == PNull
  {
    match o
    case Some(n) => PInt(n)
    case None => PNull
  }

  /** `f"%{x}%"`: the pattern a substring filter binds to ILIKE / LIKE. */
  function Like(x: string): (p: Param)
    ensures p.PText? && |p.text| == |x| + 2
    ensures p.text[0] == '%' && p.text[|p.text| - 1] == '%'
    ensures p.text[1..|p.text| - 1] == x
  {
    PText("%" + x + "%")
  }

  // ---------------------------------------------------------------------
  // Placeholders
  // ---------------------------------------------------------------------

  const P := "%s"

  /** Number of `%s` placeholders psycopg2 sees in `s` (`%%` is an escaped percent). */
  function Holes(s: string): (r: nat)
    ensures 2 * r <= |s|
    decreases |s|
  {
    if |s| < 2 then 0
    else if s[0] == '%' && s[1] == 's' then 1 + Holes(s[2..])
    else if s[0] == '%' && s[1] == '%' then Holes(s[2..])
    else Holes(s[1..])
  }

  /** Text with no percent sign at all: it binds to itself. */
  predicate Plain(s: string) { '%' !in s }

  /** `s` does not end inside a `%` escape. */
  predicate ClosedEnd(s: string) { s == [] || s[|s| - 1] != '%' }

  /** Gluing `a` and `b` creates no placeholder and breaks none. */
  predicate Seam(a: string, b: string) {
    ClosedEnd(a) || b == [] || (b[0] != 's' && b[0] != '%')
  }

  lemma {:induction false} HolesConcat(a: string, b: string)
    requires Seam(a, b)
    ensures Holes(a + b) == Holes(a) + Holes(b)
    decreases |a|
  {
    if a == [] {
      assert a + b == b;
    } else if |a| == 1 {
      if |b| > 0 {
        assert (a + b)[1..] == b;
      }
    } else {
      assert (a + b)[1..] == a[1..] + b;
      assert (a + b)[2..] == a[2..] + b;
      if a[0] == '%' && (a[1] == 's' || a[1] == '%') {
        HolesConcat(a[2..], b);
      } else {
        HolesConcat(a[1..], b);
      }
    }
  }

  lemma {:induction false} PlainHoles(s: string)
    requires Plain(s)
    ensures Holes(s) == 0
    decreases |s|
  {
    if |s| >= 2 {
      PlainHoles(s[1..]);
    }
  }

  // ---------------------------------------------------------------------
  // Binding: what psycopg2 sends to the server
  // ---------------------------------------------------------------------

  /** One unit of the statement the server receives: a character of SQL text or a bound value. */
  datatype Piece = Ch(c: char) | Arg(p: Param)

  function Chars(s: string): (r: seq<Piece>)
    ensures |r| == |s|
    ensures forall i | 0 <= i < |s| :: r[i] == Ch(s[i])
    decreases |s|
  {
    if s == [] then [] else [Ch(s[0])] + Chars(s[1..])
  }

  /**
   * psycopg2's substitution of `ps` into `s` once the counts agree: the i-th
   * `%s` becomes the i-th parameter and `%%` becomes `%`.
   */
  function Fill(s: string, ps: seq<Param>): (r: seq<Piece>)
    requires Holes(s) == |ps|
    ensures |r| <= |s|
    decreases |s|
  {
    if |s| < 2 then Chars(s)
    else if s[0] == '%' && s[1] == 's' then [Arg(ps[0])] + Fill(s[2..], ps[1..])
    else if s[0] == '%' && s[1] == '%' then [Ch('%')] + Fill(s[2..], ps)
    else [Ch(s[0])] + Fill(s[1..], ps)
  }

  /**
   * `cursor.execute(s, ps)` as far as the text goes. psycopg2 only looks at
   * the parameters when the text has a placeholder: a text without one is
   * sent as it is (with `%%` read as `%`), whatever the parameters. With a
   * placeholder, the counts must agree; `None` is psycopg2's "wrong number
   * of arguments" error.
   */
  function Bind(s: string, ps: seq<Param>): (r: Option<seq<Piece>>)
    ensures r.Some? <==> Holes(s) == |ps| || Holes(s) == 0
    ensures Holes(s) == |ps| ==> r == Some(Fill(s, ps))
    ensures Holes(s) == 0 ==> r == Some(Fill(s, []))
  {
    if Holes(s) == |ps| then Some(Fill(s, ps))
    else if Holes(s) == 0 then Some(Fill(s, []))
    else None
  }

  lemma {:induction false} FillPlain(s: string)
    requires Plain(s)
    ensures Holes(s) == 0 && Fill(s, []) == Chars(s)
    decreases |s|
  {
    PlainHoles(s);
    if |s| >= 2 {
      FillPlain(s[1..]);
    }
  }

  lemma FillSlot(p: Param)
    ensures Holes(P) == 1 && Fill(P, [p]) == [Arg(p)]
  {
    assert |P| == 2 && P[0] == '%' && P[1] == 's';
    assert P[2..] == [] && [p][1..] == [];
    assert Fill(P[2..], [p][1..]) == [];
  }

  lemma DropConcat<T>(x: seq<T>, y: seq<T>, k: nat)
    requires k <= |x|
    ensures (x + y)[k..] == x[k..] + y
  {
  }

  /** Substitution distributes over concatenation: each part keeps its own arguments, in order. */
  lemma {:induction false} FillConcat(a: string, b: string, pa: seq<Param>, pb: seq<Param>)
    requires Seam(a, b)
    requires Holes(a) == |pa| && Holes(b) == |pb|
    ensures Holes(a + b) == |pa + pb|
    ensures Fill(a + b, pa + pb) == Fill(a, pa) + Fill(b, pb)
    decreases |a|
  {
    HolesConcat(a, b);
    if |a| <= 1 {
      FillConcatShort(a, b, pa, pb);
    } else if a[0] == '%' && a[1] == 's' {
      DropConcat(a, b, 2);
      DropConcat(pa, pb, 1);
      FillConcat(a[2..], b, pa[1..], pb);
      FillConcatSlot(a, b, pa, pb);
    } else if a[0] == '%' && a[1] == '%' {
      DropConcat(a, b, 2);
      FillConcat(a[2..], b, pa, pb);
      FillConcatEscape(a, b, pa, pb);
    } else {
      DropConcat(a, b, 1);
      FillConcat(a[1..], b, pa, pb);
      FillConcatChar(a, b, pa, pb);
    }
  }

  lemma FillConcatSlot(a: string, b: string, pa: seq<Param>, pb: seq<Param>)
    requires |a| >= 2 && a[0] == '%' && a[1] == 's' && |pa| >= 1
    requires Holes(a) == |pa| && Holes(b) == |pb| && Holes(a + b) == |pa + pb|
    requires (a + b)[2..] == a[2..] + b && (pa + pb)[1..] == pa[1..] + pb
    requires Fill(a[2..] + b, pa[1..] + pb) == Fill(a[2..], pa[1..]) + Fill(b, pb)
    ensures Fill(a + b, pa + pb) == Fill(a, pa) + Fill(b, pb)
  {
    assert (a + b)[0] == '%' && (a + b)[1] == 's' && (pa + pb)[0] == pa[0];
    var t, u := Fill(a[2..], pa[1..]), Fill(b, pb);
    assert Fill(a, pa) == [Arg(pa[0])] + t;
    assert [Arg(pa[0])] + (t + u) == ([Arg(pa[0])] + t) + u;
  }

  lemma FillConcatEscape(a: string, b: string, pa: seq<Param>, pb: seq<Param>)
    requires |a| >= 2 && a[0] == '%' && a[1] == '%'
    requires Holes(a) == |pa| && Holes(b) == |pb| && Holes(a + b) == |pa + pb|
    requires (a + b)[2..] == a[2..] + b
    requires Fill(a[2..] + b, pa + pb) == Fill(a[2..], pa) + Fill(b, pb)
    ensures Fill(a + b, pa + pb) == Fill(a, pa) + Fill(b, pb)
  {
    assert (a + b)[0] == '%' && (a + b)[1] == '%';
    var t, u := Fill(a[2..], pa), Fill(b, pb);
    assert Fill(a, pa) == [Ch('%')] + t;
    assert [Ch('%')] + (t + u) == ([Ch('%')] + t) + u;
  }

  lemma FillConcatChar(a: string, b: string, pa: seq<Param>, pb: seq<Param>)
    requires |a| >= 2 && !(a[0] == '%' && (a[1] == 's' || a[1] == '%'))
    requires Holes(a) == |pa| && Holes(b) == |pb| && Holes(a + b) == |pa + pb|
    requires (a + b)[1..] == a[1..] + b
    requires Fill(a[1..] + b, pa + pb) == Fill(a[1..], pa) + Fill(b, pb)
    ensures Fill(a + b, pa + pb) == Fill(a, pa) + Fill(b, pb)
  {
    assert (a + b)[0] == a[0] && (a + b)[1] == a[1];
    var t, u := Fill(a[1..], pa), Fill(b, pb);
    assert Fill(a, pa) == [Ch(a[0])] + t;
    assert [Ch(a[0])] + (t + u) == ([Ch(a[0])] + t) + u;
  }

  lemma FillConcatShort(a: string, b: string, pa: seq<Param>, pb: seq<Param>)
    requires |a| <= 1 && Seam(a, b)
    requires Holes(a) == |pa| && Holes(b) == |pb| && Holes(a + b) == |pa + pb|
    ensures Fill(a + b, pa + pb) == Fill(a, pa) + Fill(b, pb)
  {
    assert pa == [] && pa + pb == pb;
    if a == [] {
      assert a + b == b;
      assert Fill(a, pa) == [];
    } else if b == [] {
      assert a + b == a && pb == [] && pa + pb == pa;
      assert Fill(b, pb) == [];
      assert Fill(a, pa) + [] == Fill(a, pa);
    } else {
      assert (a + b)[1..] == b;
      assert (a + b)[0] == a[0] && (a + b)[1] == b[0];
      assert a[1..] == [] && Chars(a[1..]) == [];
      assert Chars(a) == [Ch(a[0])] + [] == [Ch(a[0])];
    }
  }

  /** Fixed text followed by a bound tail. */
  lemma FillAfterPlain(a: string, b: string, pb: seq<Param>)
    requires Plain(a) && Holes(b) == |pb|
    ensures Holes(a + b) == |pb|
    ensures Fill(a + b, pb) == Chars(a) + Fill(b, pb)
  {
    FillPlain(a);
    assert [] + pb == pb;
    FillConcat(a, b, [], pb);
  }

  /** A bound head followed by fixed text. */
  lemma FillBeforePlain(a: string, b: string, pa: seq<Param>)
    requires Seam(a, b) && Plain(b) && Holes(a) == |pa|
    ensures Holes(a + b) == |pa|
    ensures Fill(a + b, pa) == Fill(a, pa) + Chars(b)
  {
    FillPlain(b);
    assert pa + [] == pa;
    FillConcat(a, b, pa, []);
  }

  // ---------------------------------------------------------------------
  // Fixed SQL text
  // ---------------------------------------------------------------------

  /** Fixed SQL text, kept as the short lines it is written in. */
  function Cat(lines: seq<string>): (r: string)
    ensures |lines| == 0 ==> r == ""
    decreases |lines|
  {
    if lines == [] then "" else Cat(lines[..|lines| - 1]) + lines[|lines| - 1]
  }

  lemma {:induction false} CatPlain(lines: seq<string>)
    requires forall i | 0 <= i < |lines| :: Plain(lines[i])
    ensures Plain(Cat(lines))
    decreases |lines|
  {
    if lines != [] {
      CatPlain(lines[..|lines| - 1]);
    }
  }

  lemma ClosedEndCat(a: string, b: string)
    requires ClosedEnd(a) && ClosedEnd(b)
    ensures ClosedEnd(a + b)
  {
    if b != [] {
      assert (a + b)[|a + b| - 1] == b[|b| - 1];
    } else {
      assert a + b == a;
    }
  }

  lemma PlainCat(a: string, b: string)
    requires Plain(a) && Plain(b)
    ensures Plain(a + b)
  {
  }

  // ---------------------------------------------------------------------
  // Filter clauses: `where_conditions.append(text); params.append(arg)`
  // ---------------------------------------------------------------------

  /** One appended condition together with the parameters appended for it. */
  datatype Cond = Cond(text: string, args: seq<Param>)

  /** The condition's own placeholders match its own arguments. */
  predicate Sound(c: Cond) {
    Holes(c.text) == |c.args| && ClosedEnd(c.text) && c.text != []
  }

  /** The condition texts, in the order the conditions were appended. */
  function Texts(cs: seq<Cond>): (r: seq<string>)
    ensures |r| == |cs|
    decreases |cs|
  {
    if cs == [] then [] else Texts(cs[..|cs| - 1]) + [cs[|cs| - 1].text]
  }

  /** The parameters of the conditions, in the order the conditions were appended. */
  function Args(cs: seq<Cond>): (r: seq<Param>)
    decreases |cs|
  {
    if cs == [] then [] else Args(cs[..|cs| - 1]) + cs[|cs| - 1].args
  }

  /** Python's `sep.join(xs)`. */
  function Join(sep: string, xs: seq<string>): (r: string)
    ensures |xs| == 0 ==> r == ""
    ensures |xs| == 1 ==> r == xs[0]
    decreases |xs|
  {
    if |xs| == 0 then ""
    else if |xs| == 1 then xs[0]
    else Join(sep, xs[..|xs| - 1]) + sep + xs[|xs| - 1]
  }

  /** `kw + " AND ".join(conds)` when there are conditions, else nothing. */
  function Section(kw: string, cs: seq<Cond>): (r: string)
    ensures kw != "" ==> (r == "" <==> cs == [])
  {
    if cs == [] then "" else kw + Join(" AND ", Texts(cs))
  }

  /** Every appended condition is sound. */
  predicate AllSound(cs: seq<Cond>) {
    forall i | 0 <= i < |cs| :: Sound(cs[i])
  }

  /** The bound form of `" AND ".join(conds)`: each condition with its own arguments in place. */
  function FilledJoin(cs: seq<Cond>): seq<Piece>
    requires AllSound(cs)
    decreases |cs|
  {
    if |cs| == 0 then []
    else if |cs| == 1 then Fill(cs[0].text, cs[0].args)
    else FilledJoin(cs[..|cs| - 1]) + Chars(" AND ") + Fill(cs[|cs| - 1].text, cs[|cs| - 1].args)
  }

  /** What the server receives for a clause section. */
  function FilledSection(kw: string, cs: seq<Cond>): seq<Piece>
    requires AllSound(cs)
  {
    if cs == [] then [] else Chars(kw) + FilledJoin(cs)
  }

  lemma {:induction false} JoinFills(cs: seq<Cond>)
    requires AllSound(cs)
    ensures Holes(Join(" AND ", Texts(cs))) == |Args(cs)|
    ensures ClosedEnd(Join(" AND ", Texts(cs)))
    ensures Fill(Join(" AND ", Texts(cs)), Args(cs)) == FilledJoin(cs)
    decreases |cs|
  {
    if |cs| == 0 {
      FillPlain("");
    } else if |cs| == 1 {
      assert cs[..0] == [];
      assert Args(cs) == Args(cs[..0]) + cs[0].args == cs[0].args;
    } else {
      var init := cs[..|cs| - 1];
      assert AllSound(init);
      JoinFills(init);
      JoinFillsStep(cs);
    }
  }

  lemma JoinFillsStep(cs: seq<Cond>)
    requires |cs| >= 2 && AllSound(cs)
    requires Holes(Join(" AND ", Texts(cs[..|cs| - 1]))) == |Args(cs[..|cs| - 1])|
    requires ClosedEnd(Join(" AND ", Texts(cs[..|cs| - 1])))
    requires Fill(Join(" AND ", Texts(cs[..|cs| - 1])), Args(cs[..|cs| - 1])) == FilledJoin(cs[..|cs| - 1])
    ensures Holes(Join(" AND ", Texts(cs))) == |Args(cs)|
    ensures ClosedEnd(Join(" AND ", Texts(cs)))
    ensures Fill(Join(" AND ", Texts(cs)), Args(cs)) == FilledJoin(cs)
  {
    var init := cs[..|cs| - 1];
    var last := cs[|cs| - 1];
    assert Texts(cs)[..|cs| - 1] == Texts(init);
    var head := Join(" AND ", Texts(init));
    assert Join(" AND ", Texts(cs)) == head + " AND " + last.text;
    FillBeforePlain(head, " AND ", Args(init));
    FillConcat(head + " AND ", last.text, Args(init), last.args);
    ClosedEndCat(head + " AND ", last.text);
  }

  /** Every condition keeps its own values: the section binds to the filled conditions. */
  lemma SectionFills(kw: string, cs: seq<Cond>)
    requires Plain(kw) && AllSound(cs)
    ensures Holes(Section(kw, cs)) == |Args(cs)|
    ensures ClosedEnd(Section(kw, cs))
    ensures Fill(Section(kw, cs), Args(cs)) == FilledSection(kw, cs)
  {
    if cs == [] {
      FillPlain("");
    } else {
      JoinFills(cs);
      FillAfterPlain(kw, Join(" AND ", Texts(cs)), Args(cs));
      if kw != [] {
        ClosedEndCat(kw, Join(" AND ", Texts(cs)));
      }
    }
  }

  // ---------------------------------------------------------------------
  // Appending to the two parallel lists
  // ---------------------------------------------------------------------

  /** `where_conditions.append(c.text); params.extend(c.args)` keeps both lists in step. */
  lemma Push(cs: seq<Cond>, c: Cond)
    ensures Texts(cs + [c]) == Texts(cs) + [c.text]
    ensures Args(cs + [c]) == Args(cs) + c.args
  {
    assert (cs + [c])[..|cs|] == cs;
  }

  lemma AllSoundConcat(a: seq<Cond>, b: seq<Cond>)
    requires AllSound(a) && AllSound(b)
    ensures AllSound(a + b)
  {
    forall i | 0 <= i < |a + b|
      ensures Sound((a + b)[i])
    {
      if i >= |a| {
        assert (a + b)[i] == b[i - |a|];
      }
    }
  }

  /** `if where_conditions: query += kw + " AND ".join(where_conditions)`. */
  method AddWhere(query: string, kw: string, conditions: seq<string>, ghost cs: seq<Cond>) returns (query': string)
    requires conditions == Texts(cs)
    ensures query' == query + Section(kw, cs)
  {
    query' := query;
    if |conditions| > 0 {
      query' := query' + kw + Join(" AND ", conditions);
    }
  }

  lemma {:induction false} ArgsConcat(a: seq<Cond>, b: seq<Cond>)
    ensures Args(a + b) == Args(a) + Args(b)
    decreases |b|
  {
    if b == [] {
      assert a + b == a;
    } else {
      var init := b[..|b| - 1];
      assert (a + b)[..|a + b| - 1] == a + init;
      ArgsConcat(a, init);
    }
  }

  // ---------------------------------------------------------------------
  // Conditions with one or two placeholders
  // ---------------------------------------------------------------------

  lemma OneSlot(pre: string, post: string)
    requires Plain(pre) && Plain(post)
    ensures Holes(pre + P + post) == 1 && ClosedEnd(pre + P + post)
  {
    PlainHoles(pre);
    PlainHoles(post);
    FillSlot(PNull);
    HolesConcat(pre, P);
    HolesConcat(pre + P, post);
    var s := pre + P + post;
    if post == [] {
      assert s[|s| - 1] == 's';
    } else {
      assert s[|s| - 1] == post[|post| - 1];
    }
  }

  lemma TwoSlots(pre: string, mid: string, post: string)
    requires Plain(pre) && Plain(mid) && Plain(post)
    ensures Holes(pre + P + mid + P + post) == 2 && ClosedEnd(pre + P + mid + P + post)
  {
    OneSlot(pre, mid);
    OneSlot("", post);
    assert "" + P + post == P + post;
    HolesConcat(pre + P + mid, P + post);
    ClosedEndCat(pre + P + mid, P + post);
    assert (pre + P + mid) + (P + post) == pre + P + mid + P + post;
  }

  // ---------------------------------------------------------------------
  // Statements
  // ---------------------------------------------------------------------

  /**
   * A statement as every tool assembles it: fixed head text, a section of
   * filter conditions (normally introduced by WHERE), more fixed text (the
   * GROUP BY), a HAVING section, fixed tail text (the ORDER BY) and, when the
   * tool binds its LIMIT, a final placeholder for it.
   */
  datatype Stmt = Stmt(head: string, kw: string, where: seq<Cond>, mid: string,
                       having: seq<Cond>, tail: string, limit: Option<Param>)

  function LimitText(l: Option<Param>): string { if l.Some? then P else "" }

  function LimitArgs(l: Option<Param>): (r: seq<Param>)
    ensures |r| <= 1
  {
    if l.Some? then [l.value] else []
  }

  /** The `query` string handed to `cursor.execute`. */
  function Text(q: Stmt): string {
    q.head + Section(q.kw, q.where) + q.mid + Section(" HAVING ", q.having) + q.tail + LimitText(q.limit)
  }

  /** The `params` list handed to `cursor.execute`: WHERE values, HAVING values, then the limit. */
  function Params(q: Stmt): seq<Param> {
    Args(q.where) + Args(q.having) + LimitArgs(q.limit)
  }

  /** A statement without GROUP BY text or HAVING conditions. */
  lemma StmtShape(q: Stmt)
    requires q.mid == "" && q.having == []
    ensures Text(q) == q.head + Section(q.kw, q.where) + q.tail + LimitText(q.limit)
    ensures Params(q) == Args(q.where) + LimitArgs(q.limit)
  {
    var w := Section(q.kw, q.where);
    assert q.head + w + q.mid == q.head + w;
    assert Section(" HAVING ", q.having) == "";
    assert Args(q.where) + Args(q.having) == Args(q.where);
  }

  /** A statement whose condition lists are empty is its fixed text alone. */
  lemma NoConditions(q: Stmt)
    requires q.where == [] && q.having == []
    ensures Text(q) == q.head + q.mid + q.tail + LimitText(q.limit)
    ensures Params(q) == LimitArgs(q.limit)
  {
    assert q.head + Section(q.kw, q.where) == q.head;
    assert q.head + q.mid + Section(" HAVING ", q.having) == q.head + q.mid;
    assert Args(q.where) + Args(q.having) == [];
  }

  /** All fixed text is free of `%`, and every condition carries its own arguments. */
  predicate WellFormed(q: Stmt) {
    Plain(q.head) && Plain(q.kw) && Plain(q.mid) && Plain(q.tail)
    && AllSound(q.where) && AllSound(q.having)
  }

  function LimitPieces(l: Option<Param>): seq<Piece> {
    if l.Some? then [Arg(l.value)] else []
  }

  /** The statement the server should receive: every value inside its own condition. */
  function Filled(q: Stmt): seq<Piece>
    requires WellFormed(q)
  {
    Chars(q.head) + FilledSection(q.kw, q.where) + Chars(q.mid)
    + FilledSection(" HAVING ", q.having) + Chars(q.tail) + LimitPieces(q.limit)
  }

  /**
   * The central property: a well-formed statement has exactly as many
   * placeholders as parameters, so psycopg2 accepts it, and each value lands
   * in the condition that was appended together with it; the limit lands in
   * the final `LIMIT %s`.
   */
  lemma StmtBinds(q: Stmt)
    requires WellFormed(q)
    ensures Holes(Text(q)) == |Params(q)|
    ensures Bind(Text(q), Params(q)) == Some(Filled(q))
  {
    var aw, ah := Args(q.where), Args(q.having);
    var body := q.head + Section(q.kw, q.where) + q.mid + Section(" HAVING ", q.having) + q.tail;
    BodyBinds(q);
    LimitBinds(body, aw + ah, q.limit);
  }

  /** The optional final `LIMIT %s` takes the last parameter. */
  lemma LimitBinds(body: string, ps: seq<Param>, l: Option<Param>)
    requires Holes(body) == |ps| && ClosedEnd(body)
    ensures Holes(body + LimitText(l)) == |ps + LimitArgs(l)|
    ensures Fill(body + LimitText(l), ps + LimitArgs(l)) == Fill(body, ps) + LimitPieces(l)
  {
    if l.Some? {
      FillSlot(l.value);
      FillConcat(body, P, ps, [l.value]);
    } else {
      assert body + LimitText(l) == body;
      assert ps + LimitArgs(l) == ps;
      assert Fill(body, ps) + LimitPieces(l) == Fill(body, ps);
    }
  }

  /** Everything before the LIMIT placeholder. */
  lemma BodyBinds(q: Stmt)
    requires WellFormed(q)
    ensures var body := q.head + Section(q.kw, q.where) + q.mid + Section(" HAVING ", q.having) + q.tail;
      Holes(body) == |Args(q.where) + Args(q.having)| && ClosedEnd(body)
      && Fill(body, Args(q.where) + Args(q.having))
         == Chars(q.head) + FilledSection(q.kw, q.where) + Chars(q.mid)
            + FilledSection(" HAVING ", q.having) + Chars(q.tail)
  {
    var h := Section(" HAVING ", q.having);
    var aw, ah := Args(q.where), Args(q.having);
    FrontBinds(q);
    var s2 := q.head + Section(q.kw, q.where) + q.mid;
    SectionFills(" HAVING ", q.having);
    FillConcat(s2, h, aw, ah);
    ClosedEndCat(s2, h);
    FillBeforePlain(s2 + h, q.tail, aw + ah);
    ClosedEndCat(s2 + h, q.tail);
  }

  /** Head text, the WHERE section and the GROUP BY text. */
  lemma FrontBinds(q: Stmt)
    requires WellFormed(q)
    ensures var front := q.head + Section(q.kw, q.where) + q.mid;
      Holes(front) == |Args(q.where)| && ClosedEnd(front)
      && Fill(front, Args(q.where)) == Chars(q.head) + FilledSection(q.kw, q.where) + Chars(q.mid)
  {
    var w := Section(q.kw, q.where);
    SectionFills(q.kw, q.where);
    FillAfterPlain(q.head, w, Args(q.where));
    ClosedEndCat(q.head, w);
    FillBeforePlain(q.head + w, q.mid, Args(q.where));
    ClosedEndCat(q.head + w, q.mid);
  }

  /** The bound limit is the last parameter, and dropping it leaves the filter values. */
  lemma LimitLast(q: Stmt)
    requires q.limit.Some?
    ensures |Params(q)| >= 1 && Params(q)[|Params(q)| - 1] == q.limit.value
    ensures Params(q)[..|Params(q)| - 1] == Args(q.where) + Args(q.having)
  {
  }
}
