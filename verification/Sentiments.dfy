/** What a reply that is not an opt-out says (classifyReply in internal/workflow/engine.go). */
module Sentiments {
  import opened Strings

  datatype Sentiment = Negative | Positive | Unclear

  /** The words of a text, single-spaced and in lower case. */
  function Lowered(text: string): string { ToLower(Join(Fields(text))) }

  predicate HasNegativePhrase(text: string) {
    || Contains(text, "not interested") || Contains(text, "do not contact") || Contains(text, "don't contact")
    || Contains(text, "wrong number") || Contains(text, "already sold") || Contains(text, "no thanks")
    || Contains(text, "no thank you")
  }

  function StripPunctuation(w: string): string {
    if w != "" && w[0] in ".,!?:;" then StripPunctuation(w[1..])
    else if w != "" && w[|w| - 1] in ".,!?:;" then StripPunctuation(w[..|w| - 1])
    else w
  }

  /** The first word that settles the matter. */
  function FirstDecisive(ws: seq<string>): Sentiment {
    if ws == [] then Unclear
    else if StripPunctuation(ws[0]) in ["no", "never"] then Negative
    else if StripPunctuation(ws[0]) in ["yes", "sure", "interested"] then Positive
    else FirstDecisive(ws[1..])
  }

  function ClassifyReply(text: string): Sentiment {
    var normalized := Lowered(text);
    if HasNegativePhrase(normalized) then Negative
    else FirstDecisive(Fields(normalized))
  }

  // ----- The same by the words of the text -----

  const REFUSALS: set<string> :=
    {"not interested", "do not contact", "don't contact", "wrong number", "already sold", "no thanks", "no thank you"}

  const NOES: set<string> := {"no", "never"}

  const YESES: set<string> := {"yes", "sure", "interested"}

  predicate OccursAt(s: string, sought: string, i: nat) { i + |sought| <= |s| && s[i..i + |sought|] == sought }

  ghost predicate Occurs(s: string, sought: string) { exists i :: OccursAt(s, sought, i) }

  predicate IsMark(c: char) { c == '.' || c == ',' || c == '!' || c == '?' || c == ':' || c == ';' }

  /** core is what is left of w between w[..i] and w[j..], and those are punctuation. */
  predicate CoreAt(w: string, core: string, i: nat, j: nat) {
    && i <= j <= |w| && core == w[i..j]
    && (forall k :: 0 <= k < i ==> IsMark(w[k])) && (forall k :: j <= k < |w| ==> IsMark(w[k]))
  }

  /** core is w without the punctuation around it. */
  ghost predicate Core(w: string, core: string) {
    && (core != "" ==> !IsMark(core[0]) && !IsMark(core[|core| - 1]))
    && exists i, j :: CoreAt(w, core, i, j)
  }

  ghost predicate Says(w: string, words: set<string>) { exists core :: core in words && Core(w, core) }

  /** Word k is one of `words`, and no earlier word settles the matter. */
  ghost predicate FirstAt(ws: seq<string>, words: set<string>, k: nat) {
    k < |ws| && Says(ws[k], words) && forall j :: 0 <= j < k ==> !Says(ws[j], NOES) && !Says(ws[j], YESES)
  }

  ghost predicate Refuses(text: string) { exists phrase :: phrase in REFUSALS && Occurs(Lowered(text), phrase) }

  ghost predicate SaysNo(text: string) { Refuses(text) || exists k :: FirstAt(Fields(Lowered(text)), NOES, k) }

  ghost predicate SaysYes(text: string) { !Refuses(text) && exists k :: FirstAt(Fields(Lowered(text)), YESES, k) }

  lemma ContainsIsOccurs(s: string, sought: string)
    ensures Contains(s, sought) <==> Occurs(s, sought)
  {
    IndexFinds(s, sought);
    if Contains(s, sought) {
      assert OccursAt(s, sought, Index(s, sought).value);
    }
    if i: nat :| OccursAt(s, sought, i) {
      IndexIsFirst(s, sought, i);
    }
  }

  lemma RefusesExactly(text: string)
    ensures HasNegativePhrase(Lowered(text)) <==> Refuses(text)
  {
    forall phrase ensures Contains(Lowered(text), phrase) <==> Occurs(Lowered(text), phrase) {
      ContainsIsOccurs(Lowered(text), phrase);
    }
  }

  lemma MarkInFront(w: string, core: string, i: nat, j: nat)
    requires w != "" && IsMark(w[0]) && CoreAt(w[1..], core, i, j)
    ensures CoreAt(w, core, i + 1, j + 1)
  {
    assert w[i + 1..j + 1] == w[1..][i..j];
    forall k | 0 <= k < i + 1 ensures IsMark(w[k]) {
      assert k > 0 ==> w[k] == w[1..][k - 1];
    }
    assert forall k :: j + 1 <= k < |w| ==> w[k] == w[1..][k - 1];
  }

  lemma MarkBehind(w: string, core: string, i: nat, j: nat)
    requires w != "" && IsMark(w[|w| - 1]) && CoreAt(w[..|w| - 1], core, i, j)
    ensures CoreAt(w, core, i, j)
  {
    var n := |w| - 1;
    assert w[i..j] == w[..n][i..j];
    assert forall k :: 0 <= k < n ==> w[k] == w[..n][k];
  }

  lemma {:induction false} StrippedIsCore(w: string) returns (i: nat, j: nat)
    ensures CoreAt(w, StripPunctuation(w), i, j)
    ensures Core(w, StripPunctuation(w))
    decreases |w|
  {
    if w != "" && IsMark(w[0]) {
      i, j := StrippedIsCore(w[1..]);
      MarkInFront(w, StripPunctuation(w), i, j);
      i, j := i + 1, j + 1;
    } else if w != "" && IsMark(w[|w| - 1]) {
      i, j := StrippedIsCore(w[..|w| - 1]);
      MarkBehind(w, StripPunctuation(w), i, j);
    } else {
      i, j := 0, |w|;
      assert w[i..j] == w;
    }
    assert CoreAt(w, StripPunctuation(w), i, j);
  }

  /** There is one core. */
  lemma CoreIsStripped(w: string, core: string)
    ensures Core(w, core) <==> core == StripPunctuation(w)
  {
    var i, j := StrippedIsCore(w);
    if Core(w, core) {
      var k, l :| CoreAt(w, core, k, l);
      SameCore(w, core, k, l, StripPunctuation(w), i, j);
    }
  }

  lemma SameCore(w: string, a: string, i: nat, j: nat, b: string, k: nat, l: nat)
    requires CoreAt(w, a, i, j) && Core(w, a) && CoreAt(w, b, k, l) && Core(w, b)
    ensures a == b
  {
    if a != "" {
      assert w[i] == a[0] && w[j - 1] == a[|a| - 1];
      assert k <= i && j <= l;
    }
    if b != "" {
      assert w[k] == b[0] && w[l - 1] == b[|b| - 1];
      assert i <= k && l <= j;
    }
  }

  lemma SaysExactly(w: string, words: set<string>)
    ensures Says(w, words) <==> StripPunctuation(w) in words
  {
    CoreIsStripped(w, StripPunctuation(w));
    if core :| core in words && Core(w, core) {
      CoreIsStripped(w, core);
    }
  }

  lemma {:induction false} DecisiveExactly(ws: seq<string>)
    ensures FirstDecisive(ws) == Negative <==> exists k :: FirstAt(ws, NOES, k)
    ensures FirstDecisive(ws) == Positive <==> exists k :: FirstAt(ws, YESES, k)
  {
    if ws != [] {
      SaysExactly(ws[0], NOES);
      SaysExactly(ws[0], YESES);
      DecisiveExactly(ws[1..]);
      if Says(ws[0], NOES) || Says(ws[0], YESES) {
        DecidedAtOnce(ws);
      } else {
        DecidedLater(ws, NOES);
        DecidedLater(ws, YESES);
      }
    }
  }

  lemma DecidedAtOnce(ws: seq<string>)
    requires ws != [] && (Says(ws[0], NOES) || Says(ws[0], YESES))
    ensures Says(ws[0], NOES) <==> exists k :: FirstAt(ws, NOES, k)
    ensures !Says(ws[0], NOES) <==> exists k :: FirstAt(ws, YESES, k)
  {
    SaysExactly(ws[0], NOES);
    SaysExactly(ws[0], YESES);
    assert Says(ws[0], NOES) ==> FirstAt(ws, NOES, 0);
    assert Says(ws[0], YESES) ==> FirstAt(ws, YESES, 0);
  }

  lemma DecidedLater(ws: seq<string>, words: set<string>)
    requires ws != [] && !Says(ws[0], NOES) && !Says(ws[0], YESES) && (words == NOES || words == YESES)
    ensures (exists k :: FirstAt(ws, words, k)) <==> exists k :: FirstAt(ws[1..], words, k)
  {
    if k: nat :| FirstAt(ws, words, k) {
      assert k > 0 && ws[1..][k - 1] == ws[k];
      assert forall j :: 0 <= j < k - 1 ==> ws[1..][j] == ws[j + 1];
      assert FirstAt(ws[1..], words, k - 1);
    }
    if k: nat :| FirstAt(ws[1..], words, k) {
      assert forall j :: 0 < j <= k ==> ws[j] == ws[1..][j - 1];
      assert FirstAt(ws, words, k + 1);
    }
  }

  /** A reply is negative exactly when, in lower case and single-spaced, it contains one of seven phrases, or its first
      word among the five decisive ones, punctuation aside, is "no" or "never"; and positive exactly when it contains
      none of the phrases and that word is "yes", "sure" or "interested". */
  lemma SentimentIsByWords(text: string)
    ensures ClassifyReply(text) == Negative <==> SaysNo(text)
    ensures ClassifyReply(text) == Positive <==> SaysYes(text)
  {
    RefusesExactly(text);
    DecisiveExactly(Fields(Lowered(text)));
  }

}
