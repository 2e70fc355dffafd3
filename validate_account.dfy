/**
 * The account-creation request check (api/middleware/validate_account.go):
 * the balance must not be negative, the CPF must have the shape
 * `^\d{3}\.?\d{3}\.?\d{3}-?\d{2}$`, and the name must not be empty, checked in
 * that order after the body is read and decoded.
 */
module ValidateAccount {
  import opened Wrappers

  /** One element of a fixed-shape pattern: an ASCII digit, or an optional literal character. */
  datatype Token = Digit | Optional(c: char)

  /** A pattern read from left to right, anchored at both ends. */
  datatype Pattern = End | Then(head: Token, rest: Pattern)

  predicate IsDigit(c: char)
  {
    '0' <= c <= '9'
  }

  predicate AllDigits(s: string)
  {
    forall k :: 0 <= k < |s| ==> IsDigit(s[k])
  }

  /** `\d{n}` followed by `rest`. */
  function DigitRun(n: nat, rest: Pattern): Pattern
  {
    if n == 0 then rest else Then(Digit, DigitRun(n - 1, rest))
  }

  /** `^\d{3}\.?\d{3}\.?\d{3}-?\d{2}$`. */
  const CpfPattern: Pattern :=
    DigitRun(3, Then(Optional('.'), DigitRun(3, Then(Optional('.'), DigitRun(3, Then(Optional('-'), DigitRun(2, End)))))))

  /** Whether no optional character of the pattern is a digit (the tokens then never compete for a character). */
  predicate SeparatorsAreNotDigits(p: Pattern)
  {
    match p
    case End => true
    case Then(t, r) => (t.Optional? ==> !IsDigit(t.c)) && SeparatorsAreNotDigits(r)
  }

  /** The recogniser: whether the whole of `s` matches the pattern, trying an optional character first present, then absent. */
  predicate Matches(p: Pattern, s: string)
  {
    match p
    case End => s == []
    case Then(Digit, r) => s != [] && IsDigit(s[0]) && Matches(r, s[1..])
    case Then(Optional(c), r) => (s != [] && s[0] == c && Matches(r, s[1..])) || Matches(r, s)
  }

  function DigitTokens(p: Pattern): nat
  {
    match p
    case End => 0
    case Then(t, r) => (if t.Digit? then 1 else 0) + DigitTokens(r)
  }

  function OptionalTokens(p: Pattern): nat
  {
    match p
    case End => 0
    case Then(t, r) => (if t.Optional? then 1 else 0) + OptionalTokens(r)
  }

  function CountDigits(s: string): nat
  {
    if s == [] then 0 else (if IsDigit(s[0]) then 1 else 0) + CountDigits(s[1..])
  }

  /**
   * The generator, independent of the recogniser: the string written by
   * filling the pattern's digit positions from `digits`, in order, and writing
   * each optional character exactly when the matching entry of `present` is true.
   */
  function Render(p: Pattern, digits: string, present: seq<bool>): string
    requires |digits| == DigitTokens(p) && |present| == OptionalTokens(p)
  {
    match p
    case End => []
    case Then(Digit, r) => [digits[0]] + Render(r, digits[1..], present)
    case Then(Optional(c), r) => (if present[0] then [c] else []) + Render(r, digits, present[1..])
  }

  lemma AllDigitsTail(digits: string)
    requires digits != [] && AllDigits(digits)
    ensures AllDigits(digits[1..])
  {
    forall k | 0 <= k < |digits[1..]| ensures IsDigit(digits[1..][k]) {
      assert digits[1..][k] == digits[k + 1];
    }
  }

  /** Every string the generator writes from digits is accepted by the recogniser. */
  lemma {:induction false} RenderMatches(p: Pattern, digits: string, present: seq<bool>)
    requires |digits| == DigitTokens(p) && |present| == OptionalTokens(p) && AllDigits(digits)
    ensures Matches(p, Render(p, digits, present))
  {
    match p
    case End =>
    case Then(Digit, r) =>
      AllDigitsTail(digits);
      RenderMatches(r, digits[1..], present);
      var s := Render(p, digits, present);
      assert s[0] == digits[0] && s[1..] == Render(r, digits[1..], present);
    case Then(Optional(c), r) =>
      RenderMatches(r, digits, present[1..]);
      var s := Render(p, digits, present);
      if present[0] {
        assert s[0] == c && s[1..] == Render(r, digits, present[1..]);
      } else {
        assert s == Render(r, digits, present[1..]);
      }
  }

  /**
   * Every string the recogniser accepts is written by the generator, from as
   * many digits as the pattern has digit tokens.
   */
  lemma {:induction false} MatchesIsRendered(p: Pattern, s: string) returns (digits: string, present: seq<bool>)
    requires Matches(p, s)
    ensures |digits| == DigitTokens(p) && |present| == OptionalTokens(p) && AllDigits(digits)
    ensures s == Render(p, digits, present)
  {
    match p
    case End =>
      digits, present := [], [];
    case Then(Digit, r) =>
      var ds, ps := MatchesIsRendered(r, s[1..]);
      digits, present := [s[0]] + ds, ps;
      assert digits[1..] == ds;
      assert AllDigits(digits) by {
        forall k | 0 <= k < |digits| ensures IsDigit(digits[k]) {
          if k > 0 { assert digits[k] == ds[k - 1]; }
        }
      }
    case Then(Optional(c), r) =>
      if s != [] && s[0] == c && Matches(r, s[1..]) {
        var ds, ps := MatchesIsRendered(r, s[1..]);
        digits, present := ds, [true] + ps;
        assert present[1..] == ps;
      } else {
        var ds, ps := MatchesIsRendered(r, s);
        digits, present := ds, [false] + ps;
        assert present[1..] == ps;
      }
  }

  /**
   * A string the recogniser accepts has exactly one digit per digit token, and
   * its length lies between the number of digit tokens and the number of tokens.
   */
  lemma {:induction false} MatchesShape(p: Pattern, s: string)
    requires Matches(p, s) && SeparatorsAreNotDigits(p)
    ensures CountDigits(s) == DigitTokens(p)
    ensures DigitTokens(p) <= |s| <= DigitTokens(p) + OptionalTokens(p)
  {
    match p
    case End =>
    case Then(Digit, r) =>
      MatchesShape(r, s[1..]);
    case Then(Optional(c), r) =>
      if s != [] && s[0] == c && Matches(r, s[1..]) {
        MatchesShape(r, s[1..]);
      } else {
        MatchesShape(r, s);
      }
  }

  lemma {:induction false} DigitRunCounts(n: nat, rest: Pattern)
    ensures DigitTokens(DigitRun(n, rest)) == n + DigitTokens(rest)
    ensures OptionalTokens(DigitRun(n, rest)) == OptionalTokens(rest)
    ensures SeparatorsAreNotDigits(DigitRun(n, rest)) == SeparatorsAreNotDigits(rest)
  {
    if n > 0 {
      DigitRunCounts(n - 1, rest);
    }
  }

  lemma {:induction false} RenderDigitRun(n: nat, rest: Pattern, digits: string, present: seq<bool>)
    requires |digits| == n + DigitTokens(rest) && |present| == OptionalTokens(rest)
    ensures DigitTokens(DigitRun(n, rest)) == |digits| && OptionalTokens(DigitRun(n, rest)) == |present|
    ensures Render(DigitRun(n, rest), digits, present) == digits[..n] + Render(rest, digits[n..], present)
  {
    DigitRunCounts(n, rest);
    if n > 0 {
      RenderDigitRun(n - 1, rest, digits[1..], present);
      assert digits[1..][..n - 1] == digits[1..n];
      assert digits[1..][n - 1..] == digits[n..];
      assert digits[..n] == [digits[0]] + digits[1..n];
    }
  }

  /** `validateCPF`: the CPF is accepted exactly when the whole string matches the pattern. */
  predicate IsCpf(s: string)
  {
    Matches(CpfPattern, s)
  }

  /** The separator `c` if it is present, or nothing. */
  function Separator(c: char, present: bool): string
  {
    if present then [c] else []
  }

  /** The CPF written from 11 digits, with a dot after the 3rd and 6th digits and a dash after the 9th, each if asked for. */
  function Punctuated(digits: string, dot1: bool, dot2: bool, dash: bool): string
    requires |digits| == 11
  {
    digits[..3] + (Separator('.', dot1) + (digits[3..6] + (Separator('.', dot2)
      + (digits[6..9] + (Separator('-', dash) + digits[9..])))))
  }

  /** `\d{n}` then an optional `c` then `rest` writes n digits, the separator if present, then what `rest` writes. */
  lemma RenderGroup(n: nat, c: char, rest: Pattern, digits: string, present: seq<bool>)
    requires |digits| == n + DigitTokens(rest) && |present| == 1 + OptionalTokens(rest)
    ensures DigitTokens(DigitRun(n, Then(Optional(c), rest))) == |digits|
    ensures OptionalTokens(DigitRun(n, Then(Optional(c), rest))) == |present|
    ensures Render(DigitRun(n, Then(Optional(c), rest)), digits, present)
      == digits[..n] + (Separator(c, present[0]) + Render(rest, digits[n..], present[1..]))
  {
    RenderDigitRun(n, Then(Optional(c), rest), digits, present);
  }

  lemma CpfPatternCounts()
    ensures DigitTokens(CpfPattern) == 11 && OptionalTokens(CpfPattern) == 3
    ensures SeparatorsAreNotDigits(CpfPattern)
  {
    var tail := Then(Optional('-'), DigitRun(2, End));
    DigitRunCounts(2, End);
    DigitRunCounts(3, tail);
    var mid := Then(Optional('.'), DigitRun(3, tail));
    DigitRunCounts(3, mid);
    DigitRunCounts(3, Then(Optional('.'), DigitRun(3, mid)));
  }

  lemma PunctuatedIsRendered(digits: string, dot1: bool, dot2: bool, dash: bool)
    requires |digits| == 11
    ensures DigitTokens(CpfPattern) == 11 && OptionalTokens(CpfPattern) == 3
    ensures Punctuated(digits, dot1, dot2, dash) == Render(CpfPattern, digits, [dot1, dot2, dash])
  {
    CpfPatternCounts();
    var p4 := DigitRun(2, End);
    var p3 := Then(Optional('-'), p4);
    var p2 := Then(Optional('.'), DigitRun(3, p3));
    DigitRunCounts(2, End);
    RenderDigitRun(2, End, digits[9..], []);
    assert Render(p4, digits[9..], []) == digits[9..] by {
      assert digits[9..][..2] == digits[9..];
    }
    var pr := [dot1, dot2, dash];
    assert pr[1..] == [dot2, dash] && pr[1..][1..] == [dash] && pr[1..][1..][1..] == [];
    RenderGroup(3, '-', p4, digits[6..], pr[1..][1..]);
    assert digits[6..][..3] == digits[6..9] && digits[6..][3..] == digits[9..];
    RenderGroup(3, '.', DigitRun(3, p3), digits[3..], pr[1..]);
    assert digits[3..][..3] == digits[3..6] && digits[3..][3..] == digits[6..];
    RenderGroup(3, '.', DigitRun(3, p2), digits, pr);
  }

  /** The CPF check accepts exactly the 11-digit strings with an optional dot after the 3rd and 6th digits and an optional dash after the 9th. */
  lemma CpfAcceptsExactlyPunctuated(s: string)
    ensures IsCpf(s) <==> exists digits: string, dot1: bool, dot2: bool, dash: bool ::
      |digits| == 11 && AllDigits(digits) && s == Punctuated(digits, dot1, dot2, dash)
  {
    CpfPatternCounts();
    if IsCpf(s) {
      var digits, present := MatchesIsRendered(CpfPattern, s);
      PunctuatedIsRendered(digits, present[0], present[1], present[2]);
      assert present == [present[0], present[1], present[2]];
    }
    forall digits: string, dot1: bool, dot2: bool, dash: bool |
      |digits| == 11 && AllDigits(digits) && s == Punctuated(digits, dot1, dot2, dash)
      ensures IsCpf(s)
    {
      PunctuatedIsCpf(digits, dot1, dot2, dash);
    }
  }

  /** Every accepted CPF holds exactly 11 digits and is 11 to 14 characters long. */
  lemma CpfShape(s: string)
    requires IsCpf(s)
    ensures CountDigits(s) == 11 && 11 <= |s| <= 14
  {
    CpfPatternCounts();
    MatchesShape(CpfPattern, s);
  }

  /** Any 11 digits, punctuated or not at each of the three places, are accepted. */
  lemma PunctuatedIsCpf(digits: string, dot1: bool, dot2: bool, dash: bool)
    requires |digits| == 11 && AllDigits(digits)
    ensures IsCpf(Punctuated(digits, dot1, dot2, dash))
  {
    PunctuatedIsRendered(digits, dot1, dot2, dash);
    RenderMatches(CpfPattern, digits, [dot1, dot2, dash]);
  }

  /** The plain form is accepted; no check digit is computed. */
  lemma PlainCpfAccepted()
    ensures IsCpf("44451598087")
  {
    var d := "44451598087";
    assert AllDigits(d) by {
      forall k | 0 <= k < |d| ensures IsDigit(d[k]) { }
    }
    PunctuatedIsCpf(d, false, false, false);
    assert Punctuated(d, false, false, false) == d;
  }

  /** The fully punctuated form is accepted. */
  lemma PunctuatedCpfAccepted()
    ensures IsCpf("028.155.170-78")
  {
    var d := "02815517078";
    assert AllDigits(d) by {
      forall k | 0 <= k < |d| ensures IsDigit(d[k]) { }
    }
    PunctuatedIsCpf(d, true, true, true);
    assert Punctuated(d, true, true, true) == "028.155.170-78";
  }

  /** Too few digits, or separators out of place, are refused. */
  lemma CpfRejections()
    ensures !IsCpf("4445159808")
    ensures !IsCpf("444-515-980.87")
  {
    if IsCpf("4445159808") {
      CpfShape("4445159808");
    }
  }

  /** The decoded request body (`accountRequest`). */
  datatype AccountRequest = AccountRequest(name: string, cpf: string, balance: int)

  datatype FieldError = ErrBalanceInvalid | ErrCpfInvalid | ErrNameInvalid

  /** `validateBalance`: a zero balance is accepted, a negative one refused. */
  function ValidateBalance(r: AccountRequest): (e: Option<FieldError>)
    ensures e.Some? <==> r.balance < 0
    ensures e.Some? ==> e.value == ErrBalanceInvalid
  {
    if r.balance < 0 then Some(ErrBalanceInvalid) else None
  }

  /** `validateCPF`. */
  function ValidateCpf(r: AccountRequest): (e: Option<FieldError>)
    ensures e.None? <==> IsCpf(r.cpf)
    ensures e.None? ==> CountDigits(r.cpf) == 11 && 11 <= |r.cpf| <= 14
    ensures e.Some? ==> e.value == ErrCpfInvalid
  {
    if IsCpf(r.cpf) then CpfShape(r.cpf); None else Some(ErrCpfInvalid)
  }

  /** `validateName`: only the empty name is refused. */
  function ValidateName(r: AccountRequest): (e: Option<FieldError>)
    ensures e.Some? <==> r.name == ""
    ensures e.Some? ==> e.value == ErrNameInvalid
  {
    if r.name == "" then Some(ErrNameInvalid) else None
  }

  /** What reached the middleware: a body that could not be read, one that is not JSON, or a decoded request. */
  datatype Body = Unreadable | Malformed | Decoded(request: AccountRequest)

  /**
   * What the middleware does: nothing at all (the read failure is only
   * logged), a 400 response with the first error, or hand the request on to `next`.
   */
  datatype Outcome = Dropped | BadRequest(error: Option<FieldError>) | Next

  const StatusBadRequest := 400

  /** `ValidateAccount.Execute`: read, decode, then balance, CPF and name, stopping at the first failure. */
  function Execute(body: Body): (o: Outcome)
    ensures o.Next? <==> body.Decoded? && body.request.balance >= 0 && IsCpf(body.request.cpf) && body.request.name != ""
    ensures o.Dropped? <==> body.Unreadable?
    ensures o == BadRequest(None) <==> body.Malformed?
    ensures o == BadRequest(Some(ErrBalanceInvalid)) <==> body.Decoded? && body.request.balance < 0
    ensures o == BadRequest(Some(ErrCpfInvalid)) <==> body.Decoded? && body.request.balance >= 0 && !IsCpf(body.request.cpf)
    ensures o == BadRequest(Some(ErrNameInvalid)) <==>
      body.Decoded? && body.request.balance >= 0 && IsCpf(body.request.cpf) && body.request.name == ""
  {
    match body
    case Unreadable => Dropped
    case Malformed => BadRequest(None)
    case Decoded(r) =>
      if ValidateBalance(r).Some? then BadRequest(ValidateBalance(r))
      else if ValidateCpf(r).Some? then BadRequest(ValidateCpf(r))
      else if ValidateName(r).Some? then BadRequest(ValidateName(r))
      else Next
  }
}
