/** Telephone numbers, opt-out words and provider error classes (internal/domain/domain.go). */
module Numbers {
  import opened Wrappers
  import opened Strings

  // ----- Sending numbers -----

  datatype NumberError = InvalidNumber | UnknownSendingNumber

  /** '+', a non-zero digit, then seven to fourteen digits. */
  predicate IsE164(s: string) {
    9 <= |s| <= 16 && s[0] == '+' && '1' <= s[1] <= '9' && forall i :: 2 <= i < |s| ==> IsDigit(s[i])
  }

  function Digits(s: string): (r: string)
    ensures forall i :: 0 <= i < |r| ==> IsDigit(r[i])
  {
    if s == "" then ""
    else Digits(s[..|s| - 1]) + if IsDigit(s[|s| - 1]) then [s[|s| - 1]] else ""
  }

  function Validated(number: string): Result<string, NumberError> {
    if IsE164(number) then Ok(number) else Err(InvalidNumber)
  }

  function Normalized(raw: string): Result<string, NumberError> {
    var n := Digits(raw);
    if "+" <= TrimSpace(raw) && IsE164(TrimSpace(raw)) then Ok(TrimSpace(raw))
    else if |n| == 10 then Validated("+" + ("1" + n))
    else if |n| == 11 && "1" <= n then Validated("+" + n)
    else Err(UnknownSendingNumber)
  }

  method NormalizeUSNumber(raw: string) returns (r: Result<string, NumberError>)
    ensures r == Normalized(raw)
  {
    var n := "";
    for i := 0 to |raw|
      invariant n == Digits(raw[..i])
    {
      assert raw[..i + 1][..i] == raw[..i];
      if '0' <= raw[i] <= '9' {
        n := n + [raw[i]];
      }
    }
    assert raw[..|raw|] == raw;
    if "+" <= TrimSpace(raw) && IsE164(TrimSpace(raw)) {
      return Ok(TrimSpace(raw));
    } else if |n| == 10 {
      n := "1" + n;
    } else if |n| == 11 && "1" <= n {
    } else {
      return Err(UnknownSendingNumber);
    }
    var number := "+" + n;
    r := if IsE164(number) then Ok(number) else Err(InvalidNumber);
  }

  /** The final check never fails: a number is refused only for its digits, and what is accepted is valid. */
  lemma NormalizedIsValid(raw: string)
    ensures Normalized(raw).Ok? ==> IsE164(Normalized(raw).value)
    ensures Normalized(raw).Err? ==> Normalized(raw).error == UnknownSendingNumber
    ensures Normalized(raw).Ok? <==>
      IsE164(TrimSpace(raw)) || |Digits(raw)| == 10 || (|Digits(raw)| == 11 && Digits(raw)[0] == '1')
  {
    var n := Digits(raw);
    if |n| == 10 {
      var s := "+" + ("1" + n);
      assert forall i :: 2 <= i < 12 ==> s[i] == n[i - 2];
      assert IsE164(s);
    } else if |n| == 11 && n[0] == '1' {
      var s := "+" + n;
      assert forall i :: 1 <= i < 12 ==> s[i] == n[i - 1];
      assert IsE164(s);
    }
  }

  lemma {:induction false} TrimKeepsSpaceless(s: string)
    requires s != "" && !IsSpace(s[0]) && !IsSpace(s[|s| - 1])
    ensures TrimSpace(s) == s
  {}

  lemma NormalizeIdempotent(raw: string)
    requires Normalized(raw).Ok?
    ensures Normalized(Normalized(raw).value) == Normalized(raw)
  {
    NormalizedIsValid(raw);
    var s := Normalized(raw).value;
    assert IsDigit(s[|s| - 1]);
    TrimKeepsSpaceless(s);
  }

  /** Without a leading '+' the punctuation of the input does not matter. */
  lemma NormalizeReadsDigitsOnly(a: string, b: string)
    requires !("+" <= TrimSpace(a)) && !("+" <= TrimSpace(b))
    requires Digits(a) == Digits(b)
    ensures Normalized(a) == Normalized(b)
  {}

  /** Ten digits, or eleven that begin with 1, are a North American number, however they are punctuated. */
  lemma NormalizedIsNorthAmerican(raw: string)
    requires !IsE164(TrimSpace(raw))
    ensures |Digits(raw)| == 10 ==> Normalized(raw) == Ok("+1" + Digits(raw))
    ensures |Digits(raw)| == 11 && Digits(raw)[0] == '1' ==> Normalized(raw) == Ok("+1" + Digits(raw)[1..])
  {
    var n := Digits(raw);
    NormalizedIsValid(raw);
    assert "+" + ("1" + n) == "+1" + n;
    if |n| == 11 && n[0] == '1' {
      assert "+" + n == "+1" + n[1..];
    }
  }

  /** The number a message may be sent from: the fallback for a blank entry, otherwise an owned number. */
  method SelectSendingNumber(raw: string, fallback: string, owned: seq<string>)
    returns (r: Result<string, NumberError>)
    ensures r == Selected(raw, fallback, owned)
  {
    var trimmed := TrimSpace(raw);
    if trimmed == "" {
      return Validated(fallback);
    }
    var number := NormalizeUSNumber(trimmed);
    if number.Err? {
      return number;
    }
    for i := 0 to |owned|
      invariant number.value !in owned[..i]
    {
      if owned[i] == number.value {
        return number;
      }
    }
    return Err(UnknownSendingNumber);
  }

  function Selected(raw: string, fallback: string, owned: seq<string>): Result<string, NumberError> {
    var trimmed := TrimSpace(raw);
    if trimmed == "" then Validated(fallback)
    else if Normalized(trimmed).Ok? && Normalized(trimmed).value !in owned then Err(UnknownSendingNumber)
    else Normalized(trimmed)
  }

  /** A selection is a valid number, and it is the fallback or one of the owned numbers; every owned
      number of the North American form can be selected by its ten digits. */
  lemma SelectionIsOwned(raw: string, fallback: string, owned: seq<string>)
    ensures var r := Selected(raw, fallback, owned);
      && (r.Ok? ==> IsE164(r.value))
      && (r.Ok? ==> if TrimSpace(raw) == "" then r.value == fallback else r.value in owned)
      && (r.Err? && r.error == InvalidNumber ==> TrimSpace(raw) == "" && !IsE164(fallback))
    ensures TrimSpace(raw) != "" && TrimSpace(raw) in owned && IsE164(TrimSpace(raw)) ==>
      Selected(raw, fallback, owned) == Ok(TrimSpace(raw))
  {
    NormalizedIsValid(TrimSpace(raw));
    if IsE164(TrimSpace(raw)) {
      TrimKeepsSpaceless(TrimSpace(raw));
    }
  }

  /** So an owned North American number is selected by its ten digits, with or without a 1 before them. */
  lemma OwnedIsSelectedByDigits(raw: string, fallback: string, owned: seq<string>, digits: string)
    requires |digits| == 10 && "+1" + digits in owned
    requires var entry := TrimSpace(raw);
      !IsE164(TrimSpace(entry)) && (Digits(entry) == digits || Digits(entry) == "1" + digits)
    ensures Selected(raw, fallback, owned) == Ok("+1" + digits)
  {
    var entry := TrimSpace(raw);
    NormalizedIsNorthAmerican(entry);
    assert Digits(entry) == "1" + digits ==> Digits(entry)[1..] == digits;
  }

  /** What HighLevel and Telnyx answer when they are asked for a contact's and the account's numbers. */
  datatype Lookup = Lookup(crm: Result<string, ()>, owned: Result<seq<string>, ()>)

  datatype ResolveError = LookupFailed | Refused(error: NumberError)

  /** resolveSendingNumber, with both clients configured (internal/app/app.go). */
  function ResolveSendingNumber(contactId: string, fallback: string, lookup: Lookup): Result<string, ResolveError> {
    if contactId != "" && lookup.crm.Err? then Err(LookupFailed)
    else
      var raw := if contactId != "" then lookup.crm.value else "";
      if TrimSpace(raw) == "" then Ok(fallback)
      else if lookup.owned.Err? then Err(LookupFailed)
      else match Selected(raw, fallback, lookup.owned.value)
        case Ok(number) => Ok(number)
        case Err(e) => Err(Refused(e))
  }

  /** A job without a contact, or one whose contact has no number of its own, goes out from the job's number; any other
      goes out from an owned number or not at all, and only an answer that is missing may be asked for again. */
  lemma ResolutionIsOwned(contactId: string, fallback: string, lookup: Lookup)
    ensures var r := ResolveSendingNumber(contactId, fallback, lookup);
      if contactId == "" then r == Ok(fallback)
      else if lookup.crm.Err? then r == Err(LookupFailed)
      else if forall i :: 0 <= i < |lookup.crm.value| ==> IsSpace(lookup.crm.value[i]) then r == Ok(fallback)
      else if lookup.owned.Err? then r == Err(LookupFailed)
      else
        && (r.Ok? ==> r.value in lookup.owned.value && IsE164(r.value))
        && (r.Err? ==> r.error == ResolveError.Refused(UnknownSendingNumber))
  {
    if contactId != "" && lookup.crm.Ok? {
      BlankExactly(lookup.crm.value);
      if lookup.owned.Ok? {
        SelectionIsOwned(lookup.crm.value, fallback, lookup.owned.value);
      }
    }
  }

  // ----- Opt-out keywords -----

  predicate IsKeyword(s: string) {
    s in {"STOP", "STOPALL", "STOP ALL", "UNSUBSCRIBE", "CANCEL", "END", "QUIT"}
  }

  predicate IsOptOut(text: string) { IsKeyword(ToUpper(Join(Fields(text)))) }

  /** The commands, word by word. */
  const OPT_OUTS: seq<seq<string>> :=
    [["STOP"], ["STOPALL"], ["STOP", "ALL"], ["UNSUBSCRIBE"], ["CANCEL"], ["END"], ["QUIT"]]

  /** Spacing and case never matter: only the upper-case words decide. */
  lemma OptOutIsByWords(text: string)
    ensures IsOptOut(text) <==> Fields(ToUpper(text)) in OPT_OUTS
  {
    var ws := Fields(ToUpper(text));
    UpperOfJoin(Fields(text));
    UpperOfFields(text);
    FieldsAreWords(ToUpper(text));
    FieldsOfJoin(ws);
    OptOutWords();
    assert ToUpper(Join(Fields(text))) == Join(ws);
    forall i | 0 <= i < |OPT_OUTS| && Join(ws) == Join(OPT_OUTS[i]) ensures ws == OPT_OUTS[i] {
      FieldsOfJoin(OPT_OUTS[i]);
    }
  }

  lemma OptOutWords()
    ensures forall i :: 0 <= i < |OPT_OUTS| ==> AreWords(OPT_OUTS[i])
    ensures forall s :: IsKeyword(s) <==>
      exists i :: 0 <= i < |OPT_OUTS| && s == Join(OPT_OUTS[i])
  {
    assert Join(["STOP", "ALL"]) == "STOP ALL" by {
      assert ["STOP", "ALL"][1..] == ["ALL"];
    }
    assert Join(OPT_OUTS[0]) == "STOP" && Join(OPT_OUTS[1]) == "STOPALL" && Join(OPT_OUTS[2]) == "STOP ALL";
    assert Join(OPT_OUTS[3]) == "UNSUBSCRIBE" && Join(OPT_OUTS[4]) == "CANCEL";
    assert Join(OPT_OUTS[5]) == "END" && Join(OPT_OUTS[6]) == "QUIT";
  }

  // ----- Provider errors -----

  datatype RetryClass = RetryTransient | RetryPermanent | RetrySuppression

  function ClassifyProviderError(status: int, code: string): RetryClass {
    if code == "40300" then RetrySuppression
    else if status == 408 || status == 425 || status == 429 || status >= 500 then RetryTransient
    else RetryPermanent
  }

}
