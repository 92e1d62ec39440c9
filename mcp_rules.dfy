/** `mcpCommonValidations`, the request-shape rules run before every `/mcp` handler
    of the service-backed router: if present, `jsonrpc` must equal "2.0", `method`
    must be a non-empty string, and `id` must be numeric. The validator first turns
    a value into a string (null becomes "", numbers their decimal form), then tests it. */
module McpRules {
  import opened Common
  import opened Http

  predicate IsDigit(c: char)
  {
    '0' <= c <= '9'
  }

  /** The string without one leading sign. */
  function Unsigned(s: string): string
  {
    if |s| > 0 && (s[0] == '+' || s[0] == '-') then s[1..] else s
  }

  /** Scans `r`: digits, at most one '.' (none once `dotSeen`), and a digit at the end. */
  function NumericBody(r: string, dotSeen: bool): bool
    decreases |r|
  {
    if |r| == 0 then false
    else if |r| == 1 then IsDigit(r[0])
    else if IsDigit(r[0]) then NumericBody(r[1..], dotSeen)
    else if r[0] == '.' && !dotSeen then NumericBody(r[1..], true)
    else false
  }

  /** The validator's `isNumeric` on a string. */
  function NumericString(s: string): bool
  {
    NumericBody(Unsigned(s), false)
  }

  // The reference definition: the regular expression ^[+-]?([0-9]*[.])?[0-9]+$

  ghost predicate AllDigits(s: string)
  {
    forall i | 0 <= i < |s| :: IsDigit(s[i])
  }

  /** `r` is `[0-9]*` `.` `[0-9]+` with the dot at position `k`. */
  ghost predicate DotAt(r: string, k: int)
  {
    0 <= k < |r| - 1 && r[k] == '.' && AllDigits(r[..k]) && AllDigits(r[k + 1..])
  }

  /** `([0-9]*[.])?[0-9]+`. */
  ghost predicate NumericPattern(r: string)
  {
    (|r| > 0 && AllDigits(r)) || exists k :: DotAt(r, k)
  }

  lemma AllDigitsCons(r: string)
    requires |r| > 0 && IsDigit(r[0])
    ensures AllDigits(r) <==> AllDigits(r[1..])
  {
    if AllDigits(r[1..]) {
      forall i | 1 <= i < |r| ensures IsDigit(r[i]) {
        assert r[i] == r[1..][i - 1];
      }
    }
  }

  lemma {:induction false} DigitsAfterDot(r: string)
    ensures NumericBody(r, true) <==> |r| > 0 && AllDigits(r)
    decreases |r|
  {
    if |r| >= 2 {
      DigitsAfterDot(r[1..]);
      if IsDigit(r[0]) {
        AllDigitsCons(r);
      }
    }
  }

  lemma {:induction false} NumericBodyMatchesPattern(r: string)
    ensures NumericBody(r, false) <==> NumericPattern(r)
    decreases |r|
  {
    if |r| == 1 {
      if DotAt(r, 0) { assert false; }
      assert NumericPattern(r) <==> AllDigits(r);
    } else if |r| >= 2 && IsDigit(r[0]) {
      var t := r[1..];
      NumericBodyMatchesPattern(t);
      AllDigitsCons(r);
      if exists k :: DotAt(t, k) {
        var k :| DotAt(t, k);
        assert r[..k + 1] == [r[0]] + t[..k];
        assert r[1..][..k + 1 - 1] == t[..k];
        AllDigitsCons(r[..k + 1]);
        assert r[k + 2..] == t[k + 1..];
        assert DotAt(r, k + 1);
      }
      if exists k :: DotAt(r, k) {
        var k :| DotAt(r, k);
        assert k != 0;
        assert r[..k][1..] == t[..k - 1];
        AllDigitsCons(r[..k]);
        assert t[k..] == r[k + 1..];
        assert DotAt(t, k - 1);
      }
    } else if |r| >= 2 && r[0] == '.' {
      DigitsAfterDot(r[1..]);
      if AllDigits(r[1..]) {
        assert r[..0] == [];
        assert DotAt(r, 0);
      }
      forall k | 0 < k < |r| - 1 ensures !DotAt(r, k) {
        assert r[..k][0] == r[0];
      }
    } else if |r| >= 2 {
      assert !AllDigits(r);
      forall k | 0 <= k < |r| - 1 ensures !DotAt(r, k) {
        if k > 0 {
          assert r[..k][0] == r[0];
        }
      }
    }
  }

  /** `isNumeric` accepts exactly the strings the regular expression matches. */
  lemma NumericStringMatchesRegex(s: string)
    ensures NumericString(s) <==> NumericPattern(Unsigned(s))
  {
    NumericBodyMatchesPattern(Unsigned(s));
  }

  /** The validator's string form of the value is empty. */
  predicate RendersEmpty(v: Scalar)
  {
    v == Null || v == Str("")
  }

  /** From 10^21 on, JavaScript writes a number in exponent form ("1e+21"). */
  const EXPONENT_FORM: int := 1_000_000_000_000_000_000_000

  /** `isNumeric()` on a value: an integer's string form matches while it is written out
      in digits, and not once it is written with an exponent; `true`, `false` and the
      empty string of null never do. */
  predicate NumericValue(v: Scalar)
  {
    match v
    case Num(n) => -EXPONENT_FORM < n < EXPONENT_FORM
    case Str(s) => NumericString(s)
    case _ => false
  }

  /** `check('jsonrpc').optional().equals('2.0')`; only the string "2.0" renders as "2.0". */
  function JsonRpcRule(v: Option<Scalar>): seq<FieldError>
  {
    if v.Some? && v.value != Str("2.0") then [FieldError("jsonrpc", v.value, "jsonrpc must be \"2.0\"")] else []
  }

  /** `check('method').optional().isString().notEmpty()`; the custom message belongs to
      `notEmpty` only, so a failed `isString` reports the default 'Invalid value'. */
  function MethodRule(v: Option<Scalar>): seq<FieldError>
  {
    if v.None? then []
    else
      (if !v.value.Str? then [FieldError("method", v.value, "Invalid value")] else []) +
      (if RendersEmpty(v.value) then [FieldError("method", v.value, "method must be a non-empty string")] else [])
  }

  /** `check('id').optional().isNumeric()`. */
  function IdRule(v: Option<Scalar>): seq<FieldError>
  {
    if v.Some? && !NumericValue(v.value) then [FieldError("id", v.value, "id must be numeric if provided")] else []
  }

  /** The rule set, in declaration order. */
  function CommonValidations(body: RpcBody): seq<FieldError>
  {
    JsonRpcRule(body.jsonrpc) + MethodRule(body.rpcMethod) + IdRule(body.id)
  }

  /** The shape the rules accept, in the terms of the rules themselves. */
  ghost predicate WellShaped(body: RpcBody)
  {
    && (body.jsonrpc.None? || body.jsonrpc.value == Str("2.0"))
    && (body.rpcMethod.None? || (body.rpcMethod.value.Str? && body.rpcMethod.value.s != ""))
    && (|| body.id.None?
        || (body.id.value.Num? && -EXPONENT_FORM < body.id.value.n < EXPONENT_FORM)
        || (body.id.value.Str? && NumericPattern(Unsigned(body.id.value.s))))
  }

  /** The rule set reports no error exactly for well-shaped bodies. */
  lemma ValidationsAcceptExactlyWellShaped(body: RpcBody)
    ensures CommonValidations(body) == [] <==> WellShaped(body)
  {
    if body.id.Some? && body.id.value.Str? {
      NumericStringMatchesRegex(body.id.value.s);
    }
  }

  /** The position of a field's rule in the rule set. */
  function RuleRank(path: string): int
  {
    if path == "jsonrpc" then 0 else if path == "method" then 1 else 2
  }

  /** Every error names one of the three checked fields, the errors come in the order the
      rules are declared, and there are at most four of them. */
  lemma ValidationErrorsNameTheirField(body: RpcBody)
    ensures forall e | e in CommonValidations(body) :: e.path == "jsonrpc" || e.path == "method" || e.path == "id"
    ensures forall i, j | 0 <= i < j < |CommonValidations(body)| ::
      RuleRank(CommonValidations(body)[i].path) <= RuleRank(CommonValidations(body)[j].path)
    ensures |CommonValidations(body)| <= 4
  {
    var a, b, c := JsonRpcRule(body.jsonrpc), MethodRule(body.rpcMethod), IdRule(body.id);
    var errs := CommonValidations(body);
    assert errs == a + b + c;
    forall i | 0 <= i < |errs|
      ensures RuleRank(errs[i].path) == (if i < |a| then 0 else if i < |a| + |b| then 1 else 2)
    {
      if i < |a| { assert errs[i] == a[i]; }
      else if i < |a| + |b| { assert errs[i] == b[i - |a|]; }
      else { assert errs[i] == c[i - |a| - |b|]; }
    }
  }

  /** A number of 10^21 or more in absolute value fails `isNumeric`; the largest double
      below 10^21, 10^21 - 2^17, passes. */
  lemma ExponentFormIdRejected()
    ensures IdRule(Some(Num(EXPONENT_FORM))) != [] && IdRule(Some(Num(-EXPONENT_FORM))) != []
    ensures IdRule(Some(Num(EXPONENT_FORM - 131072))) == []
  {
  }

  /** A `null` method fails both `isString` and `notEmpty`, so it is reported twice. */
  lemma NullMethodReportedTwice(body: RpcBody)
    requires body.rpcMethod == Some(Null)
    ensures MethodRule(body.rpcMethod) ==
      [FieldError("method", Null, "Invalid value"), FieldError("method", Null, "method must be a non-empty string")]
  {
  }
}
