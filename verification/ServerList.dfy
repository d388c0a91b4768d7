/**
 The server list as text: joined with commas by the registry, split and trimmed by
 the clients that discover it.
 */
module ServerList {

  function Join(list: seq<string>): string {
    if list == [] then "" else if |list| == 1 then list[0] else list[0] + "," + Join(list[1..])
  }

  /** Where the first comma is, or the length. */
  function Comma(s: string): (i: nat)
    ensures i <= |s| && (i < |s| ==> s[i] == ',') && forall j :: 0 <= j < i ==> s[j] != ','
  {
    if s == "" || s[0] == ',' then 0 else 1 + Comma(s[1..])
  }

  /** The pieces between commas; always at least one. */
  function Split(s: string): (pieces: seq<string>)
    ensures pieces != []
    decreases |s|
  {
    var i := Comma(s);
    if i == |s| then [s] else [s[..i]] + Split(s[i + 1..])
  }

  /** White space in Unicode's sense. */
  predicate Space(c: char) {
    var n := c as int;
    || 0x09 <= n <= 0x0d || n == 0x20 || n == 0x85 || n == 0xa0 || n == 0x1680
    || 0x2000 <= n <= 0x200a || n == 0x2028 || n == 0x2029 || n == 0x202f || n == 0x205f || n == 0x3000
  }

  function TrimLeft(s: string): string {
    if s != "" && Space(s[0]) then TrimLeft(s[1..]) else s
  }

  function TrimRight(s: string): string {
    if s != "" && Space(s[|s| - 1]) then TrimRight(s[..|s| - 1]) else s
  }

  function TrimSpace(s: string): string {
    TrimRight(TrimLeft(s))
  }

  /** The pieces that are not blank, trimmed. */
  function Trimmed(pieces: seq<string>): seq<string> {
    if pieces == [] then []
    else
      var rest := Trimmed(pieces[1..]);
      if TrimSpace(pieces[0]) != "" then [TrimSpace(pieces[0])] + rest else rest
  }

  function Parse(header: string): seq<string> {
    Trimmed(Split(header))
  }

  /** An address the text form cannot change. */
  predicate Clean(a: string) {
    ',' !in a && a != "" && TrimSpace(a) == a
  }

  // ------------------------------------------------------------------ split and join

  lemma CommaAt(a: string, rest: string)
    requires ',' !in a
    ensures Comma(a + "," + rest) == |a|
  {
    var s := a + "," + rest;
    assert s[|a|] == ',';
    forall j | 0 <= j < |a| ensures s[j] != ',' { assert s[j] == a[j]; }
  }

  /** Comma-free pieces come back from their joined text. */
  lemma {:induction false} SplitJoin(list: seq<string>)
    requires list != [] && forall a :: a in list ==> ',' !in a
    ensures Split(Join(list)) == list
  {
    assert list[0] in list;
    if |list| == 1 {
      assert Comma(list[0]) == |list[0]|;
    } else {
      var rest := Join(list[1..]);
      var s := list[0] + "," + rest;
      CommaAt(list[0], rest);
      SplitJoin(list[1..]);
      assert s[..|list[0]|] == list[0] && s[|list[0]| + 1..] == rest;
    }
  }

  lemma JoinCons(a: string, rest: seq<string>)
    requires rest != []
    ensures Join([a] + rest) == a + "," + Join(rest)
  {
    assert ([a] + rest)[1..] == rest;
  }

  /** And any text comes back from its pieces. */
  lemma {:induction false} JoinSplit(s: string)
    ensures Join(Split(s)) == s
    decreases |s|
  {
    var i := Comma(s);
    if i < |s| {
      var left, right := s[..i], s[i + 1..];
      JoinSplit(right);
      JoinCons(left, Split(right));
      CutAtComma(s, i, left, right);
    }
  }

  lemma CutAtComma(s: string, i: nat, left: string, right: string)
    requires i < |s| && s[i] == ',' && left == s[..i] && right == s[i + 1..]
    ensures s == left + "," + right
  {
  }

  lemma {:induction false} PiecesHaveNoComma(s: string, a: string)
    requires a in Split(s)
    ensures ',' !in a
    decreases |s|
  {
    var i := Comma(s);
    if i < |s| && a != s[..i] {
      PiecesHaveNoComma(s[i + 1..], a);
    }
  }

  // ------------------------------------------------------------------------ trimming

  lemma {:induction false} TrimLeftStart(s: string)
    ensures var t := TrimLeft(s); t == "" || !Space(t[0])
    ensures forall c :: c in TrimLeft(s) ==> c in s
  {
    if s != "" && Space(s[0]) { TrimLeftStart(s[1..]); }
  }

  lemma {:induction false} TrimRightEnd(s: string)
    ensures var t := TrimRight(s); t == "" || (!Space(t[|t| - 1]) && t[0] == s[0])
    ensures forall c :: c in TrimRight(s) ==> c in s
  {
    if s != "" && Space(s[|s| - 1]) { TrimRightEnd(s[..|s| - 1]); }
  }

  lemma TrimmedTwice(s: string)
    ensures TrimSpace(TrimSpace(s)) == TrimSpace(s)
    ensures forall c :: c in TrimSpace(s) ==> c in s
  {
    TrimLeftStart(s);
    TrimRightEnd(TrimLeft(s));
  }

  /** Nothing but white space. */
  predicate Blank(s: string) {
    forall i :: 0 <= i < |s| ==> Space(s[i])
  }

  /** No white space at either end. */
  predicate Tight(s: string) {
    s == "" || (!Space(s[0]) && !Space(s[|s| - 1]))
  }

  lemma {:induction false} LeftGoes(l: string, s: string)
    requires Blank(l) && (s == "" || !Space(s[0]))
    ensures TrimLeft(l + s) == s
  {
    if l == "" {
      assert l + s == s;
    } else {
      assert (l + s)[0] == l[0] && (l + s)[1..] == l[1..] + s;
      LeftGoes(l[1..], s);
    }
  }

  lemma {:induction false} RightGoes(s: string, r: string)
    requires Blank(r) && (s == "" || !Space(s[|s| - 1]))
    ensures TrimRight(s + r) == s
  {
    if r == "" {
      assert s + r == s;
    } else {
      var t := s + r;
      assert t[|t| - 1] == r[|r| - 1] && t[..|t| - 1] == s + r[..|r| - 1];
      RightGoes(s, r[..|r| - 1]);
    }
  }

  lemma {:induction false} BlankGoes(s: string)
    requires Blank(s)
    ensures TrimLeft(s) == ""
  {
    LeftGoes(s, "");
    assert s + "" == s;
  }

  /** What is left of a text is what stands between the white space at its ends. */
  lemma {:induction false} TrimTakesPadding(l: string, s: string, r: string)
    requires Blank(l) && Blank(r) && Tight(s)
    ensures TrimSpace(l + s + r) == s
  {
    if s == "" {
      assert l + s + r == l + r;
      BlankGoes(l + r);
    } else {
      assert l + s + r == l + (s + r);
      LeftGoes(l, s + r);
      RightGoes(s, r);
    }
  }

  /** A piece of the list's text: an address, or nothing, with white space around it. */
  datatype Piece = Piece(before: string, address: string, behind: string)

  function Texts(pieces: seq<Piece>): seq<string> {
    if pieces == [] then []
    else [pieces[0].before + pieces[0].address + pieces[0].behind] + Texts(pieces[1..])
  }

  /** The addresses that are not empty, in order. */
  function Addresses(pieces: seq<Piece>): seq<string> {
    if pieces == [] then []
    else (if pieces[0].address == "" then [] else [pieces[0].address]) + Addresses(pieces[1..])
  }

  predicate Padded(p: Piece) {
    && Blank(p.before) && Blank(p.behind) && Tight(p.address)
    && ',' !in p.before && ',' !in p.address && ',' !in p.behind
  }

  /** White space around the addresses and empty entries between them are skipped, and the
      addresses keep their order. */
  lemma {:induction false} ParseSkipsPadding(pieces: seq<Piece>)
    requires pieces != [] && forall p :: p in pieces ==> Padded(p)
    ensures Parse(Join(Texts(pieces))) == Addresses(pieces)
  {
    TextsHaveNoComma(pieces);
    SplitJoin(Texts(pieces));
    TrimmedTexts(pieces);
  }

  lemma {:induction false} TextsHaveNoComma(pieces: seq<Piece>)
    requires forall p :: p in pieces ==> Padded(p)
    ensures |Texts(pieces)| == |pieces| && forall a :: a in Texts(pieces) ==> ',' !in a
  {
    if pieces != [] {
      assert Padded(pieces[0]);
      TextsHaveNoComma(pieces[1..]);
    }
  }

  lemma {:induction false} TrimmedTexts(pieces: seq<Piece>)
    requires forall p :: p in pieces ==> Padded(p)
    ensures Trimmed(Texts(pieces)) == Addresses(pieces)
  {
    if pieces != [] {
      var p := pieces[0];
      assert Padded(p);
      TrimTakesPadding(p.before, p.address, p.behind);
      TrimmedTexts(pieces[1..]);
      assert Texts(pieces)[1..] == Texts(pieces[1..]);
    }
  }

  /** Whatever the text, only clean addresses are parsed out of it. */
  lemma {:induction false} TrimmedIsClean(pieces: seq<string>, a: string)
    requires a in Trimmed(pieces) && forall p :: p in pieces ==> ',' !in p
    ensures Clean(a)
  {
    TrimmedTwice(pieces[0]);
    if a != TrimSpace(pieces[0]) || TrimSpace(pieces[0]) == "" {
      TrimmedIsClean(pieces[1..], a);
    }
  }

  lemma {:induction false} TrimmedKeepsClean(list: seq<string>)
    requires forall a :: a in list ==> Clean(a)
    ensures Trimmed(list) == list
  {
    if list != [] {
      assert Clean(list[0]);
      TrimmedKeepsClean(list[1..]);
    }
  }

  /** The list survives the trip exactly when every address in it is free of commas,
      not blank and trimmed. The empty list does. */
  lemma ParseJoinIff(list: seq<string>)
    ensures Parse(Join(list)) == list <==> forall a :: a in list ==> Clean(a)
  {
    if forall a :: a in list ==> Clean(a) {
      if list == [] {
        assert Split("") == [""] && TrimSpace("") == "";
      } else {
        SplitJoin(list);
        TrimmedKeepsClean(list);
      }
    }
    if Parse(Join(list)) == list {
      forall a | a in list ensures Clean(a) {
        forall p | p in Split(Join(list)) ensures ',' !in p { PiecesHaveNoComma(Join(list), p); }
        TrimmedIsClean(Split(Join(list)), a);
      }
    }
  }
}
