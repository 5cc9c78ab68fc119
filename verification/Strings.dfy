/** The functions of Go's strings package that the program uses, over characters. */
module Strings {
  import opened Wrappers

  // ----- Searching and replacing -----

  function ReplaceAll(s: string, sought: string, with: string): string
    requires sought != ""
  {
    if |s| < |sought| then s
    else if sought <= s then with + ReplaceAll(s[|sought|..], sought, with)
    else [s[0]] + ReplaceAll(s[1..], sought, with)
  }

  function Index(s: string, sought: string): (r: Option<nat>)
    ensures r.Some? ==> r.value + |sought| <= |s|
  {
    if sought <= s then Some(0)
    else if s == "" then None
    else Shifted(Index(s[1..], sought), 1)
  }

  function Shifted(r: Option<nat>, shift: nat): Option<nat> {
    if r.Some? then Some(r.value + shift) else None
  }

  /** Index is the first position at which `sought` occurs. */
  lemma {:induction false} IndexIsFirst(s: string, sought: string, i: nat)
    requires i <= |s| && sought <= s[i..]
    ensures Index(s, sought).Some? && Index(s, sought).value <= i
    ensures (forall j :: 0 <= j < i ==> !(sought <= s[j..])) ==> Index(s, sought) == Some(i)
  {
    if !(sought <= s) {
      assert s[0..] == s;
      assert s[1..][i - 1..] == s[i..];
      assert forall j :: 0 <= j < i - 1 ==> s[1..][j..] == s[j + 1..];
      IndexIsFirst(s[1..], sought, i - 1);
    } else {
      assert s[0..] == s;
    }
  }

  lemma {:induction false} IndexFinds(s: string, sought: string)
    ensures Index(s, sought).Some? ==> sought <= s[Index(s, sought).value..]
  {
    if sought <= s {
      assert s[0..] == s;
    } else if s != "" {
      IndexFinds(s[1..], sought);
      var r := Index(s[1..], sought);
      assert r.Some? ==> s[1..][r.value..] == s[r.value + 1..];
    }
  }

  /** One differing character rules out a prefix. */
  lemma Mismatch(p: string, s: string, i: nat)
    requires i < |p| && (i < |s| ==> p[i] != s[i])
    ensures !(p <= s)
  {}

  predicate Contains(s: string, sought: string) { Index(s, sought).Some? }

  // ----- Case -----

  function Up(c: char): char { if 'a' <= c <= 'z' then c - 32 as char else c }

  function Low(c: char): char { if 'A' <= c <= 'Z' then c + 32 as char else c }

  function ToUpper(s: string): string { if s == "" then "" else [Up(s[0])] + ToUpper(s[1..]) }

  function ToLower(s: string): string { if s == "" then "" else [Low(s[0])] + ToLower(s[1..]) }

  /** Letter by letter: the 26 letters change their case, and nothing else changes. */
  lemma {:induction false} CaseByLetter(s: string)
    ensures |ToLower(s)| == |s| == |ToUpper(s)|
    ensures forall i :: 0 <= i < |s| ==>
      && ToLower(s)[i] == (if 'A' <= s[i] <= 'Z' then 'a' + (s[i] - 'A') else s[i])
      && ToUpper(s)[i] == (if 'a' <= s[i] <= 'z' then 'A' + (s[i] - 'a') else s[i])
  {
    if s != "" {
      CaseByLetter(s[1..]);
    }
  }

  // ----- White space and words -----

  /** unicode.IsSpace on the Latin-1 characters. */
  predicate IsSpace(c: char) {
    c == ' ' || '\t' <= c <= '\r' || c == '\U{85}' || c == '\U{A0}'
  }

  function TrimLeft(s: string): string {
    if s != "" && IsSpace(s[0]) then TrimLeft(s[1..]) else s
  }

  function TrimRight(s: string): string {
    if s != "" && IsSpace(s[|s| - 1]) then TrimRight(s[..|s| - 1]) else s
  }

  function TrimSpace(s: string): string { TrimRight(TrimLeft(s)) }

  /** Nothing is left exactly of white space. */
  lemma BlankExactly(s: string)
    ensures TrimSpace(s) == "" <==> forall i :: 0 <= i < |s| ==> IsSpace(s[i])
  {
    TrimLeftEnds(s);
    TrimRightEnds(TrimLeft(s));
  }

  lemma {:induction false} TrimLeftEnds(s: string)
    ensures TrimLeft(s) != "" ==> !IsSpace(TrimLeft(s)[0]) && TrimLeft(s)[0] in s
    ensures TrimLeft(s) == "" <==> forall i :: 0 <= i < |s| ==> IsSpace(s[i])
  {
    if s != "" && IsSpace(s[0]) {
      TrimLeftEnds(s[1..]);
      assert forall i :: 0 < i < |s| ==> s[i] == s[1..][i - 1];
      assert forall i :: 0 <= i < |s| - 1 ==> s[1..][i] == s[i + 1];
    }
  }

  lemma {:induction false} TrimRightEnds(s: string)
    ensures TrimRight(s) == "" <==> forall i :: 0 <= i < |s| ==> IsSpace(s[i])
  {
    if s != "" && IsSpace(s[|s| - 1]) {
      TrimRightEnds(s[..|s| - 1]);
    }
  }

  /** The characters before the first white space. */
  function FirstWord(s: string): (w: string)
    ensures w <= s
  {
    if s == "" || IsSpace(s[0]) then "" else [s[0]] + FirstWord(s[1..])
  }

  /** strings.Fields: the maximal runs of characters that are not white space. */
  function Fields(s: string): seq<string>
    decreases |s|
  {
    if s == "" then []
    else if IsSpace(s[0]) then Fields(s[1..])
    else [FirstWord(s)] + Fields(s[|FirstWord(s)|..])
  }

  /** strings.Join with a single space. */
  function Join(ws: seq<string>): string {
    if ws == [] then "" else if |ws| == 1 then ws[0] else ws[0] + " " + Join(ws[1..])
  }

  predicate IsWord(w: string) { w != "" && forall c :: c in w ==> !IsSpace(c) }

  predicate AreWords(ws: seq<string>) { forall i :: 0 <= i < |ws| ==> IsWord(ws[i]) }

  lemma {:induction false} FirstWordOf(w: string, rest: string)
    requires forall c :: c in w ==> !IsSpace(c)
    requires rest == "" || IsSpace(rest[0])
    ensures FirstWord(w + rest) == w
  {
    if w == "" {
      assert w + rest == rest;
    } else {
      assert w[0] in w;
      assert (w + rest)[1..] == w[1..] + rest;
      FirstWordOf(w[1..], rest);
    }
  }

  /** Splitting undoes joining. */
  lemma {:induction false} FieldsOfJoin(ws: seq<string>)
    requires AreWords(ws)
    ensures Fields(Join(ws)) == ws
  {
    if ws != [] {
      var w := ws[0];
      assert IsWord(w) && w[0] in w;
      if |ws| == 1 {
        assert w + "" == w;
        FirstWordOf(w, "");
        assert w[|w|..] == "";
      } else {
        var rest := " " + Join(ws[1..]);
        assert Join(ws) == w + rest;
        FirstWordOf(w, rest);
        assert (w + rest)[|w|..] == rest && rest[1..] == Join(ws[1..]);
        FieldsOfJoin(ws[1..]);
      }
    }
  }

  /** What splitting yields are words. */
  lemma {:induction false} FieldsAreWords(s: string)
    ensures AreWords(Fields(s))
    decreases |s|
  {
    if s != "" {
      if IsSpace(s[0]) {
        FieldsAreWords(s[1..]);
      } else {
        FirstWordIsWord(s);
        FieldsAreWords(s[|FirstWord(s)|..]);
      }
    }
  }

  lemma {:induction false} FirstWordIsWord(s: string)
    ensures forall c :: c in FirstWord(s) ==> !IsSpace(c)
  {
    if s != "" && !IsSpace(s[0]) {
      FirstWordIsWord(s[1..]);
    }
  }

  function UpperWords(ws: seq<string>): seq<string> {
    if ws == [] then [] else [ToUpper(ws[0])] + UpperWords(ws[1..])
  }

  lemma {:induction false} UpperOfConcat(a: string, b: string)
    ensures ToUpper(a + b) == ToUpper(a) + ToUpper(b)
  {
    if a == "" {
      assert a + b == b;
    } else {
      assert (a + b)[1..] == a[1..] + b;
      UpperOfConcat(a[1..], b);
    }
  }

  lemma {:induction false} UpperOfJoin(ws: seq<string>)
    ensures ToUpper(Join(ws)) == Join(UpperWords(ws))
  {
    if |ws| > 1 {
      UpperOfConcat(ws[0] + " ", Join(ws[1..]));
      UpperOfConcat(ws[0], " ");
      UpperOfJoin(ws[1..]);
      assert UpperWords(ws)[1..] == UpperWords(ws[1..]);
    }
  }

  lemma {:induction false} UpperFirstWord(s: string)
    ensures FirstWord(ToUpper(s)) == ToUpper(FirstWord(s))
    ensures |ToUpper(s)| == |s|
    ensures |FirstWord(ToUpper(s))| == |FirstWord(s)|
  {
    if s != "" {
      UpperFirstWord(s[1..]);
    }
  }

  lemma {:induction false} UpperOfFields(s: string)
    ensures Fields(ToUpper(s)) == UpperWords(Fields(s))
    decreases |s|
  {
    if s != "" {
      if IsSpace(s[0]) {
        UpperOfFields(s[1..]);
      } else {
        var w := FirstWord(s);
        UpperFirstWord(s);
        UpperOfConcat(w, s[|w|..]);
        UpperFirstWord(w);
        assert w + s[|w|..] == s;
        assert ToUpper(s)[|w|..] == ToUpper(s[|w|..]);
        UpperOfFields(s[|w|..]);
        assert Fields(s)[1..] == Fields(s[|w|..]);
      }
    }
  }

  // ----- Decimal numbers (the %d of fmt.Sprintf) -----

  function Digit(n: nat): char
    requires n < 10
  {
    '0' + n as char
  }

  predicate IsDigit(c: char) { '0' <= c <= '9' }

  function Decimal(n: nat): (s: string)
    ensures s != "" && forall i :: 0 <= i < |s| ==> IsDigit(s[i])
  {
    if n < 10 then [Digit(n)] else Decimal(n / 10) + [Digit(n % 10)]
  }

  function Parse(s: string): nat
    requires forall i :: 0 <= i < |s| ==> IsDigit(s[i])
  {
    if s == "" then 0 else
      assert IsDigit(s[|s| - 1]);
      10 * Parse(s[..|s| - 1]) + (s[|s| - 1] - '0') as int
  }

  lemma {:induction false} ParseDecimal(n: nat)
    ensures Parse(Decimal(n)) == n
  {
    var s := Decimal(n);
    if n < 10 {
      assert s[..0] == "";
    } else {
      assert s[..|s| - 1] == Decimal(n / 10);
      ParseDecimal(n / 10);
    }
  }

  /** The first colon of a text splits it in one way only. */
  lemma {:induction false} ColonSplit(a: string, b: string, c: string, d: string)
    requires ':' !in a && ':' !in c
    requires a + (":" + b) == c + (":" + d)
    ensures a == c && b == d
  {
    var s, t := a + (":" + b), c + (":" + d);
    if a == "" || c == "" {
      assert s[0] == t[0];
      assert a == c == "";
      assert s[1..] == b && t[1..] == d;
    } else {
      assert s[0] == t[0] && s[1..] == a[1..] + (":" + b) && t[1..] == c[1..] + (":" + d);
      ColonSplit(a[1..], b, c[1..], d);
    }
  }

  lemma DecimalInjective(m: nat, n: nat)
    requires Decimal(m) == Decimal(n)
    ensures m == n
  {
    ParseDecimal(m);
    ParseDecimal(n);
  }

}
