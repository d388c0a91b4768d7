/**
 What `fmt.Errorf` makes of a text that is its whole format, with no arguments: the
 scan of flags, width, precision, argument index and verb that the fmt package
 documents, each verb finding no operand.
 */
module Formatting {

  const BAD_WIDTH := "%!(BADWIDTH)"
  const BAD_PREC := "%!(BADPREC)"
  const NO_VERB := "%!(NOVERB)"
  const MISSING := "(MISSING)"
  const BAD_INDEX := "(BADINDEX)"
  const LARGEST := 1_000_000  // widths and precisions beyond this are refused

  /** `t` is what `s` ends with. */
  predicate Ends(s: string, t: string)
    ensures Ends(s, t) ==> |t| <= |s|
  {
    s == t || (s != "" && Ends(s[1..], t))
  }

  lemma {:induction false} EndsOn(s: string, t: string, u: string)
    requires Ends(s, t) && Ends(t, u)
    ensures Ends(s, u)
  {
    if s != t { EndsOn(s[1..], t, u); }
  }

  lemma {:induction false} DropEnds(s: string, i: nat)
    requires i <= |s|
    ensures Ends(s, s[i..])
  {
    if 0 < i {
      DropEnds(s[1..], i - 1);
      assert s[1..][i - 1..] == s[i..];
    }
  }

  lemma {:induction false} EndsSplits(s: string, t: string)
    requires Ends(s, t)
    ensures s == s[..|s| - |t|] + t
  {
    if s != t {
      EndsSplits(s[1..], t);
      assert s == [s[0]] + s[1..];
    }
  }

  // ------------------------------------------------------------------------- the scan

  predicate IsFlag(c: char) {
    c == '#' || c == '0' || c == '+' || c == '-' || c == ' '
  }

  function SkipFlags(s: string): (rest: string)
    ensures Ends(s, rest)
  {
    if s != "" && IsFlag(s[0]) then SkipFlags(s[1..]) else s
  }

  /** Reads a number: what follows it, and whether there was one. A number that is too
      large swallows the rest of the text. */
  function SkipNumber(s: string, num: nat, some: bool): (r: (string, bool))
    ensures Ends(s, r.0)
  {
    if s == "" || !('0' <= s[0] <= '9') then (s, some)
    else if LARGEST < num then DropEnds(s, |s|); ("", false)
    else SkipNumber(s[1..], num * 10 + (s[0] as int - '0' as int), true)
  }

  function Bracket(s: string): (i: nat)
    ensures i <= |s| && (i < |s| ==> s[i] == ']')
  {
    if s == "" || s[0] == ']' then 0 else 1 + Bracket(s[1..])
  }

  /** An argument index in brackets: what follows, whether the bracket held a number,
      and whether the operand is in doubt. No index can name an operand here. */
  datatype Index = Index(rest: string, found: bool, bad: bool)

  function SkipIndex(s: string): (x: Index)
    ensures Ends(s, x.rest)
  {
    if s == "" || s[0] != '[' then Index(s, false, false)
    else
      var i := 1 + Bracket(s[1..]);
      DropEnds(s, 1);
      DropEnds(s, if i < |s| then i + 1 else i);
      if |s| < 3 || i == |s| then Index(s[1..], false, true)
      else Index(s[i + 1..], SkipNumber(s[1..i], 0, false) == ("", true), true)
  }

  /** Half a directive: the text left, what was put out, and the two index flags. */
  datatype Part = Part(rest: string, out: string, found: bool, bad: bool)

  function Width(s: string): Part {
    var x := SkipIndex(SkipFlags(s));
    if x.rest != "" && x.rest[0] == '*' then Part(x.rest[1..], BAD_WIDTH, false, x.bad)
    else
      var n := SkipNumber(x.rest, 0, false);
      Part(n.0, "", x.found, x.bad || (x.found && n.1))
  }

  function Precision(w: Part): Part {
    if w.rest == "" || w.rest[0] != '.' then w
    else
      var x := SkipIndex(w.rest[1..]);
      var bad := w.bad || w.found || x.bad;
      if x.rest != "" && x.rest[0] == '*' then Part(x.rest[1..], w.out + BAD_PREC, false, bad)
      else Part(SkipNumber(x.rest, 0, false).0, w.out, x.found, bad)
  }

  /** What stands before the verb: the part left, and what was put out by then. */
  function BeforeVerb(s: string): Part {
    var p := Precision(Width(s));
    if p.found then p else var x := SkipIndex(p.rest); Part(x.rest, p.out, x.found, p.bad || x.bad)
  }

  lemma WidthEnds(s: string)
    ensures Ends(s, Width(s).rest)
    ensures Width(s).out == "" || Width(s).out == BAD_WIDTH
  {
    var flags := SkipFlags(s);
    var x := SkipIndex(flags);
    EndsOn(s, flags, x.rest);
    if x.rest != "" { DropEnds(x.rest, 1); }
    EndsOn(s, x.rest, Width(s).rest);
  }

  lemma PrecisionEnds(w: Part)
    ensures Ends(w.rest, Precision(w).rest)
    ensures Precision(w).out == w.out || Precision(w).out == w.out + BAD_PREC
  {
    if w.rest != "" && w.rest[0] == '.' {
      var x := SkipIndex(w.rest[1..]);
      DropEnds(w.rest, 1);
      EndsOn(w.rest, w.rest[1..], x.rest);
      if x.rest != "" { DropEnds(x.rest, 1); }
      EndsOn(w.rest, x.rest, Precision(w).rest);
    }
  }

  /** Nothing, or complaints about the width and the precision. */
  predicate Complaints(o: string) {
    o == "" || o == BAD_WIDTH || o == BAD_PREC || o == BAD_WIDTH + BAD_PREC
  }

  lemma BeforeVerbEnds(s: string)
    ensures Ends(s, BeforeVerb(s).rest) && Complaints(BeforeVerb(s).out)
  {
    WidthEnds(s);
    PrecisionEnds(Width(s));
    var p := Precision(Width(s));
    EndsOn(s, Width(s).rest, p.rest);
    EndsOn(s, p.rest, BeforeVerb(s).rest);
  }

  /** A directive from behind its percent sign: the text left and what it puts out. */
  function Directive(s: string): (r: (string, string))
    ensures Ends(s, r.0)
  {
    BeforeVerbEnds(s);
    var p := BeforeVerb(s);
    if p.rest == "" then ("", p.out + NO_VERB)
    else
      DropEnds(p.rest, 1);
      EndsOn(s, p.rest, p.rest[1..]);
      (p.rest[1..], p.out + Operand(p.rest[0], p.bad))
  }

  function Operand(verb: char, bad: bool): string {
    if verb == '%' then "%"
    else "%!" + [verb] + if bad then BAD_INDEX else MISSING
  }

  function Format(s: string): string
    decreases |s|
  {
    if s == "" then ""
    else if s[0] != '%' then [s[0]] + Format(s[1..])
    else
      var d := Directive(s[1..]);
      d.1 + Format(d.0)
  }

  // ------------------------------------------------------------- what a directive is

  /** Every percent sign is the last character or followed by an exclamation mark. */
  predicate Marked(o: string) {
    forall i :: 0 <= i < |o| - 1 && o[i] == '%' ==> o[i + 1] == '!'
  }

  lemma MarkedConcat(a: string, b: string)
    requires Marked(a) && Marked(b) && (a == "" || a[|a| - 1] != '%')
    ensures Marked(a + b)
  {
    var o := a + b;
    forall i | 0 <= i < |o| - 1 && o[i] == '%' ensures o[i + 1] == '!' {
      if i < |a| - 1 {
        assert o[i] == a[i] && o[i + 1] == a[i + 1];
      } else if |a| <= i {
        assert o[i] == b[i - |a|] && o[i + 1] == b[i + 1 - |a|];
      }
    }
  }

  lemma OperandMarked(verb: char, bad: bool)
    ensures var o := Operand(verb, bad);
      && Marked(o) && o[0] == '%' && (o[|o| - 1] == '%' ==> verb == '%')
      && (o != "%" ==> |o| >= 2 && o[1] == '!')
  {
  }

  lemma ComplaintsMarked(o: string)
    requires Complaints(o)
    ensures Marked(o) && (o != "" ==> o[|o| - 1] != '%' && o[0] == '%' && |o| >= 2 && o[1] == '!')
  {
    MarkedConcat(BAD_WIDTH, BAD_PREC);
  }

  /** A directive `c` and its output `o`, as far as the comparison of texts needs it. */
  predicate DirectiveOk(c: string, o: string, rest: string) {
    && c != "" && c[0] == '%' && o != "" && o[0] == '%' && Marked(o)
    && (|o| >= 2 ==> o[1] == '!')
    && (o[|o| - 1] == '%' ==> |c| >= 2 && c[|c| - 1] == '%')
    && (|c| >= 2 && c[1] == '!' ==> c == "%!" && o == "%!!(MISSING)" && '%' !in o[1..])
    && (|c| == 1 ==> rest == "" && |o| > 1)
  }

  lemma AnswerMarked(a: string, b: string)
    requires Complaints(a) && Marked(b) && b != "" && b[0] == '%' && (|b| >= 2 ==> b[1] == '!')
    ensures var o := a + b;
      o[0] == '%' && Marked(o) && (|o| >= 2 ==> o[1] == '!') && o[|o| - 1] == b[|b| - 1]
  {
    ComplaintsMarked(a);
    MarkedConcat(a, b);
  }

  /** An exclamation mark right behind the percent sign is taken for the verb. */
  lemma Exclaimed(t: string)
    requires t != "" && t[0] == '!'
    ensures Directive(t) == (t[1..], "%!!(MISSING)")
  {
    assert SkipFlags(t) == t && SkipIndex(t) == Index(t, false, false) && SkipNumber(t, 0, false) == (t, false);
    assert Width(t) == Part(t, "", false, false);
    assert BeforeVerb(t) == Part(t, "", false, false);
    var o: string := Operand('!', false);
    assert o == "%!!(MISSING)" && "" + o == o;
    assert Directive(t).0 == t[1..] && Directive(t).1 == "" + o;
  }

  lemma TextLeft(t: string)
    ensures var p, rest := BeforeVerb(t), Directive(t).0;
      && (t == "" ==> p.rest == "") && (t != "" ==> |rest| < |t|)
      && (p.rest != "" ==> |rest| < |t| && t[|t| - |rest| - 1] == p.rest[0])
  {
    var p := BeforeVerb(t);
    BeforeVerbEnds(t);
    EndsSplits(t, p.rest);
    if p.rest != "" { assert t[|t| - |p.rest|] == p.rest[0]; }
  }

  lemma TextOut(t: string)
    ensures var p, o := BeforeVerb(t), Directive(t).1;
      && o != "" && o[0] == '%' && Marked(o) && (|o| >= 2 ==> o[1] == '!')
      && (p.rest == "" ==> |o| > 1 && o[|o| - 1] != '%')
      && (p.rest != "" && o[|o| - 1] == '%' ==> p.rest[0] == '%')
  {
    var p := BeforeVerb(t);
    BeforeVerbEnds(t);
    if p.rest == "" {
      AnswerMarked(p.out, NO_VERB);
    } else {
      OperandMarked(p.rest[0], p.bad);
      AnswerMarked(p.out, Operand(p.rest[0], p.bad));
    }
  }

  /** What is put out, by what is left. */
  lemma OutputOk(t: string)
    ensures var (rest, o) := Directive(t);
      && o != "" && o[0] == '%' && Marked(o) && (|o| >= 2 ==> o[1] == '!')
      && (t == "" ==> rest == "" && |o| > 1)
      && (t != "" ==> |rest| < |t|)
      && (o[|o| - 1] == '%' ==> |rest| < |t| && t[|t| - |rest| - 1] == '%')
  {
    TextLeft(t);
    TextOut(t);
  }

  lemma ConsumedIsOk(t: string, rest: string, o: string)
    requires |rest| <= |t| && o != "" && o[0] == '%' && Marked(o) && (|o| >= 2 ==> o[1] == '!')
    requires t == "" ==> rest == "" && |o| > 1
    requires t != "" ==> |rest| < |t|
    requires o[|o| - 1] == '%' ==> |rest| < |t| && t[|t| - |rest| - 1] == '%'
    requires t != "" && t[0] == '!' ==> rest == t[1..] && o == "%!!(MISSING)"
    ensures DirectiveOk("%" + t[..|t| - |rest|], o, rest)
  {
  }

  lemma Cut(s: string, t: string, rest: string)
    requires s != "" && s[0] == '%' && t == s[1..] && Ends(t, rest)
    ensures s == ("%" + t[..|t| - |rest|]) + rest
  {
    EndsSplits(t, rest);
    assert s == "%" + (t[..|t| - |rest|] + rest);
  }

  /** A text that starts with a percent sign, cut behind its directive. */
  lemma DirectiveIsOk(s: string) returns (c: string, o: string, rest: string)
    requires s != "" && s[0] == '%'
    ensures (rest, o) == Directive(s[1..]) && s == c + rest && DirectiveOk(c, o, rest)
  {
    var t := s[1..];
    rest, o := Directive(t).0, Directive(t).1;
    c := "%" + t[..|t| - |rest|];
    OutputOk(t);
    Cut(s, t, rest);
    if t != "" && t[0] == '!' { Exclaimed(t); }
    ConsumedIsOk(t, rest, o);
  }

  // ----------------------------------------------------------- which texts survive it

  /** The output can never make up for having fallen behind the text by `p`. */
  lemma {:induction false} NeverCatchesUp(p: string, s: string)
    requires '%' in p
    ensures Format(s) != p + s
    decreases |s|
  {
    if s == "" {
    } else if s[0] != '%' {
      if p[0] == s[0] {
        NeverCatchesUp(p[1..] + [s[0]], s[1..]);
        Turned(p, s, Format(s[1..]));
      }
    } else {
      var c, o, rest := DirectiveIsOk(s);
      if o <= p + c {
        StillBehind(p, c, o, rest);
        NeverCatchesUp((p + c)[|o|..], rest);
      }
      NotMadeUp(p, c, o, rest, Format(rest));
    }
  }

  /** A directive does not make up for it if what follows does not. */
  lemma NotMadeUp(p: string, c: string, o: string, rest: string, f: string)
    requires p != "" && DirectiveOk(c, o, rest) && (rest == "" ==> f == "")
    requires o <= p + c ==> f != (p + c)[|o|..] + rest
    ensures o + f != p + (c + rest)
  {
    assert p + (c + rest) == (p + c) + rest;
    if o <= p + c { Behind(p + c, o, rest, f); } else { TooMuch(p, c, o, rest, f); }
  }

  lemma Turned(p: string, s: string, f: string)
    requires p != "" && s != "" && p[0] == s[0] && f != (p[1..] + [s[0]]) + s[1..]
    ensures [s[0]] + f != p + s
  {
    assert p + s == [s[0]] + ((p[1..] + [s[0]]) + s[1..]);
    SameFront([s[0]], f, (p[1..] + [s[0]]) + s[1..]);
  }

  lemma SameFront(a: string, x: string, y: string)
    ensures a + x == a + y <==> x == y
  {
    assert (a + x)[|a|..] == x && (a + y)[|a|..] == y;
  }

  lemma Behind(x: string, o: string, rest: string, f: string)
    requires o <= x && f != x[|o|..] + rest
    ensures o + f != x + rest
  {
    assert x + rest == o + (x[|o|..] + rest);
    SameFront(o, f, x[|o|..] + rest);
  }

  lemma StillBehind(p: string, c: string, o: string, rest: string)
    requires '%' in p && DirectiveOk(c, o, rest) && o <= p + c
    ensures '%' in (p + c)[|o|..]
  {
    var x := p + c;
    if |o| <= |p| {
      assert x[|o|..][|p| - |o|] == '%';
    } else {
      PercentInside(p, c, o, rest);
      assert x[|o|..][|c| - 2] == c[|c| - 1];
    }
  }

  /** Where output and text agree, a later percent sign of the output is its last character. */
  lemma PercentInside(p: string, c: string, o: string, rest: string)
    requires p != "" && DirectiveOk(c, o, rest) && |p| < |o| && |c| >= 2
    requires forall i :: 0 <= i < |o| && i < |p| + |c| ==> o[i] == (p + c)[i]
    ensures |o| == |p| + 1
  {
    assert o[|p|] == (p + c)[|p|] == c[0];
    assert o[1..][|p| - 1] == o[|p|];
    assert (p + c)[|p| + 1] == c[1];
  }

  lemma TooMuch(p: string, c: string, o: string, rest: string, f: string)
    requires p != "" && DirectiveOk(c, o, rest) && !(o <= p + c) && (rest == "" ==> f == "")
    ensures o + f != (p + c) + rest
  {
    var x := p + c;
    if |o| <= |x| {
      assert (o + f)[..|o|] == o && (x + rest)[..|o|] == x[..|o|];
    } else if |c| == 1 {
      assert |o + f| > |x + rest|;
    } else {
      assert (o + f)[..|x|] == o[..|x|] && (x + rest)[..|x|] == x;
      NotPast(p, c, o, rest);
    }
  }

  lemma NotPast(p: string, c: string, o: string, rest: string)
    requires p != "" && DirectiveOk(c, o, rest) && |p + c| < |o| && |c| >= 2
    ensures o[..|p + c|] != p + c
  {
    var x := p + c;
    assert x[|p|] == c[0] && x[|p| + 1] == c[1];
    assert o[..|x|][|p|] == o[|p|] && o[..|x|][|p| + 1] == o[|p| + 1];
    assert o[1..][|p| - 1] == o[|p|];
  }

  /** Nor can the text make up for being behind the output by `q`. */
  lemma {:induction false} NeverFallsBack(q: string, s: string)
    requires q != "" && '%' !in q
    ensures s != q + Format(s)
    decreases |s|
  {
    if s != "" && s[0] == q[0] {
      NeverFallsBack(q[1..] + [s[0]], s[1..]);
      var f := Format(s[1..]);
      assert q + ([s[0]] + f) == [s[0]] + ((q[1..] + [s[0]]) + f);
      SameFront([s[0]], s[1..], (q[1..] + [s[0]]) + f);
      assert [s[0]] + s[1..] == s;
    }
  }

  /** The first directive already shows. */
  lemma DirectiveShows(s: string)
    requires s != "" && s[0] == '%'
    ensures Format(s) != s
  {
    var c, o, rest := DirectiveIsOk(s);
    if o <= c {
      OnlyPercent(c, o, rest);
      assert c[1..][|c| - 2] == '%';
      NeverCatchesUp(c[1..], rest);
      Behind(c, o, rest, Format(rest));
    } else if |c| < |o| && o[..|c|] == c && |c| >= 2 {
      NeverFallsBack("!(MISSING)", rest);
      ShowsAhead(c, o, rest, Format(rest));
    } else {
      Shows(c, o, rest, Format(rest));
    }
  }

  lemma ShowsAhead(c: string, o: string, rest: string, f: string)
    requires DirectiveOk(c, o, rest) && |c| < |o| && o[..|c|] == c && |c| >= 2
    requires rest != "!(MISSING)" + f
    ensures o + f != c + rest
  {
    assert o[..|c|][1] == o[1];
    assert o == c + "!(MISSING)";
    assert o + f == c + ("!(MISSING)" + f);
    SameFront(c, "!(MISSING)" + f, rest);
  }

  lemma OnlyPercent(c: string, o: string, rest: string)
    requires DirectiveOk(c, o, rest) && o <= c
    ensures o == "%" && |c| >= 2 && c[|c| - 1] == '%'
  {
  }

  lemma Shows(c: string, o: string, rest: string, f: string)
    requires DirectiveOk(c, o, rest) && !(o <= c) && !(|c| < |o| && o[..|c|] == c && |c| >= 2)
    requires rest == "" ==> f == ""
    ensures o + f != c + rest
  {
    if |o| <= |c| {
      assert (o + f)[..|o|] == o && (c + rest)[..|o|] == c[..|o|];
    } else if |c| == 1 {
      assert |o + f| > |c + rest|;
    } else {
      assert (o + f)[..|c|] == o[..|c|] && (c + rest)[..|c|] == c;
    }
  }

  /** A text comes through unchanged exactly when it has no percent sign. */
  lemma {:induction false} UnchangedIff(s: string)
    ensures Format(s) == s <==> '%' !in s
    decreases |s|
  {
    if s != "" {
      if s[0] == '%' {
        DirectiveShows(s);
      } else {
        UnchangedIff(s[1..]);
        SameFront([s[0]], Format(s[1..]), s[1..]);
        assert s == [s[0]] + s[1..];
      }
    }
  }

  /** Nor does formatting hide that there was one. */
  lemma {:induction false} PercentStays(s: string)
    requires '%' in s
    ensures '%' in Format(s)
    decreases |s|
  {
    if s[0] == '%' {
      var c, o, rest := DirectiveIsOk(s);
      assert Format(s)[0] == '%';
    } else {
      PercentStays(s[1..]);
      assert Format(s)[1..] == Format(s[1..]);
    }
  }

  lemma {:induction false} FormatLiteral(a: string, s: string)
    requires '%' !in a
    ensures Format(a + s) == a + Format(s)
  {
    if a != "" {
      assert (a + s)[1..] == a[1..] + s;
      FormatLiteral(a[1..], s);
      assert a == [a[0]] + a[1..];
    } else {
      assert a + s == s;
    }
  }

  lemma NothingBehind()
    ensures Format("%") == NO_VERB
  {
    assert "%"[1..] == "";
    assert BeforeVerb("") == Part("", "", false, false);
    assert Directive("") == ("", "" + NO_VERB);
  }

  lemma SpaceThenLetter(verb: char, s: string, u: string, t: string)
    requires 'a' <= verb <= 'z' && u == [verb] + s && t == [' '] + u
    ensures BeforeVerb(t) == Part(u, "", false, false)
  {
    assert t[1..] == u;
    assert SkipFlags(u) == u && SkipFlags(t) == u && SkipIndex(u) == Index(u, false, false);
    assert SkipNumber(u, 0, false) == (u, false);
    assert Width(t) == Part(u, "", false, false);
  }

  lemma LetterBehind(verb: char, s: string)
    requires 'a' <= verb <= 'z'
    ensures Format(['%', ' ', verb] + s) == "%!" + [verb] + MISSING + Format(s)
  {
    var u := [verb] + s;
    var t := [' '] + u;
    SpaceThenLetter(verb, s, u, t);
    var text := ['%', ' ', verb] + s;
    assert text[1..] == t && u[1..] == s;
    var o := Operand(verb, false);
    assert "" + o == o;
    assert Directive(t).0 == s && Directive(t).1 == "" + o;
  }

  /** A sign at the end, as in "100%": a complaint follows it. */
  lemma SignAtTheEnd(a: string)
    requires '%' !in a
    ensures Format(a + "%") == a + NO_VERB
  {
    FormatLiteral(a, "%");
    NothingBehind();
  }

  /** A sign before a word, as in "90% full": the word's first letter is taken for a verb. */
  lemma SignBeforeWord(a: string, verb: char, b: string)
    requires '%' !in a && 'a' <= verb <= 'z' && '%' !in b
    ensures Format(a + (['%', ' ', verb] + b)) == a + ("%!" + [verb] + MISSING + b)
  {
    FormatLiteral(a, ['%', ' ', verb] + b);
    LetterBehind(verb, b);
    UnchangedIff(b);
  }

  // ------------------------------------------------------------ the directives by shape

  /** Not a character that stands before a verb. */
  predicate IsVerb(c: char) {
    !IsFlag(c) && !('0' <= c <= '9') && c != '[' && c != '*' && c != '.'
  }

  predicate Digits(s: string) {
    |s| <= 6 && forall i :: 0 <= i < |s| ==> '0' <= s[i] <= '9'
  }

  predicate Flags(s: string) {
    forall i :: 0 <= i < |s| ==> IsFlag(s[i])
  }

  lemma {:induction false} FlagsGo(flags: string, t: string)
    requires Flags(flags) && (t == "" || !IsFlag(t[0]))
    ensures SkipFlags(flags + t) == t
  {
    if flags == "" {
      assert flags + t == t;
    } else {
      assert (flags + t)[0] == flags[0] && (flags + t)[1..] == flags[1..] + t;
      FlagsGo(flags[1..], t);
    }
  }

  /** A number of few digits is read to its end. */
  lemma {:induction false} DigitsGo(digits: string, t: string, num: nat, some: bool, bound: nat)
    requires (forall i :: 0 <= i < |digits| ==> '0' <= digits[i] <= '9') && (t == "" || !('0' <= t[0] <= '9'))
    requires num < bound && bound * Power(|digits|) <= LARGEST
    ensures SkipNumber(digits + t, num, some) == (t, some || digits != "")
    decreases |digits|
  {
    if digits == "" {
      assert digits + t == t;
    } else {
      var d := digits[0] as int - '0' as int;
      assert (digits + t)[0] == digits[0] && (digits + t)[1..] == digits[1..] + t;
      assert Power(|digits|) == 10 * Power(|digits| - 1);
      DigitsGo(digits[1..], t, num * 10 + d, true, 10 * bound);
    }
  }

  function Power(n: nat): (p: nat)
    ensures 1 <= p
  {
    if n == 0 then 1 else 10 * Power(n - 1)
  }

  lemma {:induction false} PowerGrows(m: nat, n: nat)
    requires m <= n
    ensures Power(m) <= Power(n)
  {
    if m < n { PowerGrows(m, n - 1); }
  }

  lemma NumberGoes(digits: string, t: string)
    requires Digits(digits) && (t == "" || !('0' <= t[0] <= '9'))
    ensures SkipNumber(digits + t, 0, false) == (t, digits != "")
  {
    PowerGrows(|digits|, 6);
    assert Power(6) == 10 * Power(5) && Power(5) == 10 * Power(4) && Power(4) == 10 * Power(3);
    DigitsGo(digits, t, 0, false, 1);
  }

  lemma WidthGoes(flags: string, width: string, t: string)
    requires Flags(flags) && Digits(width) && (width != "" ==> width[0] != '0')
    requires t != "" && (IsVerb(t[0]) || t[0] == '.')
    ensures Width(flags + (width + t)) == Part(t, "", false, false)
  {
    var u := width + t;
    FlagsGo(flags, u);
    assert SkipIndex(u) == Index(u, false, false);
    NumberGoes(width, t);
  }

  lemma PrecisionGoes(prec: string, verb: char, s: string)
    requires Digits(prec) && IsVerb(verb)
    ensures Precision(Part("." + (prec + ([verb] + s)), "", false, false)) == Part([verb] + s, "", false, false)
  {
    var t, u := [verb] + s, prec + ([verb] + s);
    assert ("." + u)[1..] == u;
    assert SkipIndex(u) == Index(u, false, false);
    NumberGoes(prec, t);
  }

  /** What stands between a percent sign and its verb: flags, a width and a precision. */
  function Prefix(flags: string, width: string, dotted: bool, prec: string, t: string): string {
    flags + (width + if dotted then "." + (prec + t) else t)
  }

  lemma BeforeVerbIs(flags: string, width: string, dotted: bool, prec: string, verb: char, s: string)
    requires Flags(flags) && Digits(width) && (width != "" ==> width[0] != '0') && Digits(prec) && IsVerb(verb)
    ensures BeforeVerb(Prefix(flags, width, dotted, prec, [verb] + s)) == Part([verb] + s, "", false, false)
  {
    var t := [verb] + s;
    WidthGoes(flags, width, if dotted then "." + (prec + t) else t);
    if dotted { PrecisionGoes(prec, verb, s); }
    assert SkipIndex(t) == Index(t, false, false);
  }

  /** What a verb without an operand puts out; a second percent sign is itself. */
  function Complaint(verb: char): string {
    if verb == '%' then "%" else "%!" + [verb] + "(MISSING)"
  }

  /** Any directive of flags, width, precision and verb is replaced as a whole by the
      verb's complaint, or by one percent sign if that is the verb. */
  lemma {:induction false} DirectiveGoes(flags: string, width: string, dotted: bool, prec: string, verb: char,
                                         s: string)
    requires Flags(flags) && Digits(width) && (width != "" ==> width[0] != '0') && Digits(prec) && IsVerb(verb)
    ensures Format("%" + Prefix(flags, width, dotted, prec, [verb] + s)) == Complaint(verb) + Format(s)
  {
    var t := Prefix(flags, width, dotted, prec, [verb] + s);
    var text := "%" + t;
    BeforeVerbIs(flags, width, dotted, prec, verb, s);
    assert ([verb] + s)[1..] == s;
    assert "" + Operand(verb, false) == Complaint(verb);
    assert Directive(t) == (s, Complaint(verb));
    assert text[0] == '%' && text[1..] == t;
  }

  /** Two signs are one, as in "50%% done". */
  lemma {:induction false} DoubledSign(a: string, s: string)
    requires '%' !in a
    ensures Format(a + ("%%" + s)) == a + ("%" + Format(s))
  {
    FormatLiteral(a, "%%" + s);
    DirectiveGoes("", "", false, "", '%', s);
    assert "%" + Prefix("", "", false, "", ['%'] + s) == "%%" + s;
  }

  /** A star takes the place of a width that no operand gives. */
  lemma {:induction false} StarComplains(flags: string, verb: char, s: string)
    requires Flags(flags) && IsVerb(verb)
    ensures Format("%" + (flags + ("*" + ([verb] + s)))) == "%!(BADWIDTH)" + Complaint(verb) + Format(s)
  {
    var u := [verb] + s;
    var star := "*" + u;
    var t := flags + star;
    FlagsGo(flags, star);
    assert SkipIndex(star) == Index(star, false, false) && star[1..] == u;
    assert Width(t) == Part(u, BAD_WIDTH, false, false);
    assert BeforeVerb(t) == Part(u, BAD_WIDTH, false, false) && u[1..] == s;
    var text := "%" + t;
    assert text[0] == '%' && text[1..] == t;
    assert Directive(t) == (s, BAD_WIDTH + Operand(verb, false));
  }

  lemma {:induction false} BracketAt(digits: string, t: string)
    requires ']' !in digits && t != "" && t[0] == ']'
    ensures Bracket(digits + t) == |digits|
  {
    if digits == "" {
      assert digits + t == t;
    } else {
      assert (digits + t)[0] == digits[0] && (digits + t)[1..] == digits[1..] + t;
      BracketAt(digits[1..], t);
    }
  }

  lemma IndexIsBad(digits: string, u: string)
    requires Digits(digits) && digits != ""
    ensures SkipIndex("[" + (digits + ("]" + u))) == Index(u, true, true)
  {
    var t := digits + ("]" + u);
    var s := "[" + t;
    assert s[1..] == t;
    BracketAt(digits, "]" + u);
    assert s[1..1 + |digits|] == digits && s[|digits| + 2..] == u;
    NumberGoes(digits, "");
    assert digits + "" == digits;
  }

  /** An argument index names no operand. */
  lemma {:induction false} IndexComplains(digits: string, verb: char, s: string)
    requires Digits(digits) && digits != "" && IsVerb(verb) && verb != '%'
    ensures Format("%[" + (digits + ("]" + ([verb] + s)))) == "%!" + [verb] + "(BADINDEX)" + Format(s)
  {
    var u := [verb] + s;
    var t := "[" + (digits + ("]" + u));
    IndexIsBad(digits, u);
    assert SkipFlags(t) == t && SkipNumber(u, 0, false) == (u, false);
    assert Width(t) == Part(u, "", true, true);
    assert BeforeVerb(t) == Part(u, "", true, true) && u[1..] == s;
    assert Directive(t) == (s, "" + Operand(verb, true));
    var text := "%" + t;
    assert text[0] == '%' && text[1..] == t;
    assert "%[" + (digits + ("]" + u)) == text;
  }

  /** And a star takes the place of a precision. */
  lemma {:induction false} StarPrecisionComplains(verb: char, s: string)
    requires IsVerb(verb)
    ensures Format("%.*" + ([verb] + s)) == "%!(BADPREC)" + Complaint(verb) + Format(s)
  {
    var u := [verb] + s;
    var star := "*" + u;
    var t := "." + star;
    assert t[1..] == star && star[1..] == u && u[1..] == s;
    assert SkipFlags(t) == t && SkipIndex(t) == Index(t, false, false) && SkipNumber(t, 0, false) == (t, false);
    assert SkipIndex(star) == Index(star, false, false);
    assert Precision(Part(t, "", false, false)) == Part(u, "" + BAD_PREC, false, false);
    assert BeforeVerb(t) == Part(u, "" + BAD_PREC, false, false);
    var text := "%" + t;
    assert text[0] == '%' && text[1..] == t && "%.*" + u == text;
    assert Directive(t) == (s, ("" + BAD_PREC) + Operand(verb, false));
  }

  /** A number that is too large takes the rest of the text with it. */
  lemma {:induction false} HugeGo(digits: string, t: string, num: nat, some: bool)
    requires digits != "" && forall i :: 0 <= i < |digits| ==> '0' <= digits[i] <= '9'
    requires LARGEST < num * Power(|digits| - 1)
    ensures SkipNumber(digits + t, num, some) == ("", false)
    decreases |digits|
  {
    assert (digits + t)[0] == digits[0] && (digits + t)[1..] == digits[1..] + t;
    assert Power(0) == 1;
    if num <= LARGEST {
      var d := digits[0] as int - '0' as int;
      var n := |digits| - 1;
      assert Power(n) == 10 * Power(n - 1);
      Times(num, num * 10 + d, Power(n - 1));
      HugeGo(digits[1..], t, num * 10 + d, true);
    }
  }

  lemma Times(num: nat, more: nat, p: nat)
    requires 10 * num <= more
    ensures num * (10 * p) <= more * p
  {
    assert more * p == 10 * num * p + (more - 10 * num) * p;
  }

  /** As a width of nine digits or more does: no verb is left. */
  lemma {:induction false} HugeWidthSwallows(digits: string, s: string)
    requires 9 <= |digits| && (forall i :: 0 <= i < |digits| ==> '0' <= digits[i] <= '9') && digits[0] != '0'
    ensures Format("%" + (digits + s)) == "%!(NOVERB)"
  {
    var t := digits + s;
    var d := digits[0] as int - '0' as int;
    PowerGrows(7, |digits| - 2);
    assert Power(7) == 10 * Power(6) && Power(6) == 10 * Power(5) && Power(5) == 10 * Power(4);
    assert Power(4) == 10 * Power(3) && Power(3) == 10 * Power(2) && Power(2) == 10 * Power(1);
    Times(0, d - 1, Power(|digits| - 2));
    assert d * Power(|digits| - 2) == (d - 1) * Power(|digits| - 2) + Power(|digits| - 2);
    HugeGo(digits[1..], s, d, true);
    assert t[0] == digits[0] && t[1..] == digits[1..] + s;
    assert SkipFlags(t) == t && SkipIndex(t) == Index(t, false, false);
    assert SkipNumber(t, 0, false) == ("", false);
    assert Width(t) == Part("", "", false, false) && BeforeVerb(t) == Part("", "", false, false);
    assert Directive(t) == ("", "" + NO_VERB);
    var text := "%" + t;
    assert text[0] == '%' && text[1..] == t && Format("") == "";
    assert "" + NO_VERB + "" == "%!(NOVERB)";
  }
}
