/**
 * The mock checkout page: its card-number, expiry and CVC input filters,
 * the plan shown for the `plan` query parameter, and the form state.
 */
module CheckoutPage {
  import opened Common

  predicate IsDigit(c: char)
  {
    '0' <= c <= '9'
  }

  predicate AllDigits(s: string)
  {
    forall i :: 0 <= i < |s| ==> IsDigit(s[i])
  }

  function Min(a: int, b: int): int
  {
    if a <= b then a else b
  }

  /**
   * `value.replace(/\s+/g, '').replace(/[^0-9]/gi, '')`, and the CVC
   * filter `replace(/\D/g, '')`: the ASCII digits of `s`, in order.
   */
  function Digits(s: string): (d: string)
    ensures |d| <= |s|
    ensures AllDigits(d)
    ensures AllDigits(s) ==> d == s
  {
    if s == [] then []
    else (if IsDigit(s[0]) then [s[0]] else []) + Digits(s[1..])
  }

  lemma {:induction false} DigitsAppend(a: string, b: string)
    ensures Digits(a + b) == Digits(a) + Digits(b)
  {
    if a == [] {
      assert a + b == b;
    } else {
      assert (a + b)[0] == a[0];
      assert (a + b)[1..] == a[1..] + b;
      DigitsAppend(a[1..], b);
    }
  }

  // ---------------------------------------------------------------------------
  // formatCardNumber
  // ---------------------------------------------------------------------------

  /**
   * The first match of `/\d{4,16}/g` in a digit-only string, or '' when
   * there is none: the regex takes up to 16 digits greedily from the start
   * and needs at least 4.
   */
  function FirstDigitRun(v: string): (m: string)
    requires AllDigits(v)
  {
    if |v| >= 4 then v[..Min(16, |v|)] else ""
  }

  /** `m` cut into blocks of 4 from the left; only the last block may be shorter. */
  function Blocks(m: string): seq<string>
    decreases |m|
  {
    if m == [] then []
    else if |m| <= 4 then [m]
    else [m[..4]] + Blocks(m[4..])
  }

  /** `parts.join(sep)` */
  function Join(parts: seq<string>, sep: string): string
  {
    if parts == [] then ""
    else if |parts| == 1 then parts[0]
    else parts[0] + sep + Join(parts[1..], sep)
  }

  /** What `formatCardNumber(value)` returns. */
  function FormattedCard(value: string): string
  {
    var v := Digits(value);
    var parts := Blocks(FirstDigitRun(v));
    if |parts| > 0 then Join(parts, " ") else v
  }

  /** `formatCardNumber`: builds `parts` with a loop, then joins them. */
  method FormatCardNumber(value: string) returns (r: string)
    ensures r == FormattedCard(value)
  {
    var v := Digits(value);
    var m := FirstDigitRun(v);
    var parts: seq<string> := [];
    var i := 0;
    while i < |m|
      invariant 0 <= i
      invariant parts + Blocks(m[Min(i, |m|)..]) == Blocks(m)
    {
      ghost var rest := m[i..];
      if |rest| <= 4 {
        assert rest == m[i..Min(i + 4, |m|)] && m[Min(i + 4, |m|)..] == [];
      } else {
        assert rest[..4] == m[i..i + 4] && rest[4..] == m[i + 4..];
        assert Blocks(rest) == [rest[..4]] + Blocks(rest[4..]);
      }
      parts := parts + [m[i..Min(i + 4, |m|)]];
      i := i + 4;
    }
    assert m[Min(i, |m|)..] == [];
    assert parts == Blocks(m);
    if |parts| > 0 {
      r := Join(parts, " ");
    } else {
      r := v;
    }
  }

  /** Every block but the last has 4 characters; the last has 1 to 4; together they are `m`. */
  lemma {:induction false} BlocksShape(m: string)
    ensures |Blocks(m)| == (|m| + 3) / 4
    ensures forall j :: 0 <= j < |Blocks(m)| - 1 ==> |Blocks(m)[j]| == 4
    ensures m != [] ==> 1 <= |Blocks(m)[|Blocks(m)| - 1]| <= 4
    decreases |m|
  {
    if |m| > 4 {
      BlocksShape(m[4..]);
      assert Blocks(m) == [m[..4]] + Blocks(m[4..]);
    }
  }

  /** Joining the blocks of a string longer than 4: its first block, a space, then the rest joined. */
  lemma JoinStep(m: string)
    requires |m| > 4
    ensures Join(Blocks(m), " ") == m[..4] + " " + Join(Blocks(m[4..]), " ")
  {
    assert Blocks(m) == [m[..4]] + Blocks(m[4..]);
    assert Blocks(m[4..]) != [];
  }

  /**
   * The blocks of a digit string joined by single spaces: a space sits at
   * every fifth position and nowhere else, digits everywhere else, the last
   * character is a digit, and the length is `|m|` plus one space per full
   * block followed by more digits.
   */
  lemma {:induction false} JoinedBlocksLayout(m: string)
    requires AllDigits(m) && m != []
    ensures var r := Join(Blocks(m), " ");
      && |r| == |m| + (|m| - 1) / 4
      && (forall k :: 0 <= k < |r| ==> (r[k] == ' ' <==> k % 5 == 4))
      && (forall k :: 0 <= k < |r| ==> r[k] == ' ' || IsDigit(r[k]))
      && IsDigit(r[|r| - 1])
    decreases |m|
  {
    var r := Join(Blocks(m), " ");
    if |m| > 4 {
      var rest := m[4..];
      assert AllDigits(rest) by {
        forall k | 0 <= k < |rest| ensures IsDigit(rest[k]) { assert rest[k] == m[k + 4]; }
      }
      JoinedBlocksLayout(rest);
      JoinStep(m);
      var tail := Join(Blocks(rest), " ");
      forall k | 0 <= k < |r| ensures (r[k] == ' ' <==> k % 5 == 4) && (r[k] == ' ' || IsDigit(r[k])) {
        if k < 4 {
          assert r[k] == m[k];
        } else if k > 4 {
          assert r[k] == tail[k - 5];
        }
      }
      assert r[|r| - 1] == tail[|tail| - 1];
    } else {
      assert r == m;
    }
  }

  /** A leading space contributes nothing to the digits. */
  lemma DigitsAfterSpace(tail: string)
    ensures Digits(" " + tail) == Digits(tail)
  {
    var spaced := " " + tail;
    assert spaced[0] == ' ' && spaced[1..] == tail;
  }

  /** A space between a digit block and the rest contributes nothing to the digits. */
  lemma DigitsAroundSpace(block: string, tail: string)
    requires AllDigits(block)
    ensures Digits(block + " " + tail) == block + Digits(tail)
  {
    assert block + " " + tail == block + (" " + tail);
    DigitsAppend(block, " " + tail);
    DigitsAfterSpace(tail);
  }

  /** Dropping the spaces of the joined blocks of a digit string gives the string back. */
  lemma {:induction false} JoinedBlocksDigits(m: string)
    requires AllDigits(m) && m != []
    ensures Digits(Join(Blocks(m), " ")) == m
    decreases |m|
  {
    if |m| > 4 {
      var rest := m[4..];
      assert AllDigits(rest) by {
        forall k | 0 <= k < |rest| ensures IsDigit(rest[k]) { assert rest[k] == m[k + 4]; }
      }
      JoinedBlocksDigits(rest);
      JoinStep(m);
      DigitsAroundSpace(m[..4], Join(Blocks(rest), " "));
      assert m[..4] + rest == m;
    } else {
      assert Join(Blocks(m), " ") == m;
    }
  }

  /** The formatted card number holds digits and single spaces only, and fits the field's 19 characters. */
  lemma CardNumberShape(value: string)
    ensures var r := FormattedCard(value);
      && |r| <= 19
      && (forall k :: 0 <= k < |r| ==> r[k] == ' ' || IsDigit(r[k]))
      && (forall k :: 0 <= k < |r| && r[k] == ' ' ==> k % 5 == 4 && 0 < k < |r| - 1 && IsDigit(r[k - 1]) && IsDigit(r[k + 1]))
  {
    var v := Digits(value);
    var m := FirstDigitRun(v);
    if m != [] {
      JoinedBlocksLayout(m);
      var r := Join(Blocks(m), " ");
      forall k | 0 <= k < |r| && r[k] == ' ' ensures 0 < k < |r| - 1 && IsDigit(r[k - 1]) && IsDigit(r[k + 1]) {
        assert k % 5 == 4 && k != |r| - 1;
        assert (k + 1) % 5 == 0 && (k - 1) % 5 == 3;
      }
    }
  }

  /**
   * The digits kept: with at least 4 digits, the first 16 of them (and
   * never a trailing space); with fewer, all of them and nothing else.
   */
  lemma CardNumberDigits(value: string)
    ensures var v := Digits(value);
      && (|v| >= 4 ==> Digits(FormattedCard(value)) == v[..Min(16, |v|)])
      && (|v| < 4 ==> FormattedCard(value) == v)
  {
    var v := Digits(value);
    if |v| >= 4 {
      JoinedBlocksDigits(FirstDigitRun(v));
    }
  }

  /** Re-formatting a formatted card number changes nothing. */
  lemma CardNumberIdempotent(value: string)
    ensures FormattedCard(FormattedCard(value)) == FormattedCard(value)
  {
    var v := Digits(value);
    var m := FirstDigitRun(v);
    if m != [] {
      JoinedBlocksDigits(m);
      assert FirstDigitRun(m) == m;
    }
  }

  // ---------------------------------------------------------------------------
  // formatExpiry
  // ---------------------------------------------------------------------------

  /** `formatExpiry`: two digits, a slash, then up to two more digits. */
  function FormatExpiry(value: string): (r: string)
    ensures var v := Digits(value);
      && |r| <= 5
      && (|v| < 2 ==> r == v)
      && (|v| >= 2 ==> |r| == Min(4, |v|) + 1 && r[2] == '/' && Digits(r) == v[..Min(4, |v|)])
  {
    var v := Digits(value);
    if |v| >= 2 then
      var r := v[..2] + "/" + v[2..Min(4, |v|)];
      assert r == v[..2] + ("/" + v[2..Min(4, |v|)]);
      assert AllDigits(v[..2]) && AllDigits(v[2..Min(4, |v|)]);
      assert Digits("/") == "";
      DigitsAppend(v[..2], "/" + v[2..Min(4, |v|)]);
      DigitsAppend("/", v[2..Min(4, |v|)]);
      assert v[..2] + v[2..Min(4, |v|)] == v[..Min(4, |v|)];
      r
    else v
  }

  /** Re-formatting a formatted expiry changes nothing. */
  lemma ExpiryIdempotent(value: string)
    ensures FormatExpiry(FormatExpiry(value)) == FormatExpiry(value)
  {
    var v := Digits(value);
    if |v| >= 2 {
      var k := Min(4, |v|);
      var r := FormatExpiry(value);
      assert Digits(r) == v[..k];
      assert v[..k][..2] == v[..2] && v[..k][2..Min(4, k)] == v[2..k];
    }
  }

  /** The CVC filter keeps digits only, keeps a digit-only input as it is, and so is idempotent. */
  lemma CvcFilter(value: string)
    ensures AllDigits(Digits(value))
    ensures Digits(Digits(value)) == Digits(value)
    ensures AllDigits(value) ==> Digits(value) == value
  {
  }

  // ---------------------------------------------------------------------------
  // The plan shown for the `plan` query parameter
  // ---------------------------------------------------------------------------

  datatype PlanDetails = PlanDetails(id: string, name: string, price: nat, description: string)

  const ProDetails: PlanDetails :=
    PlanDetails("pro", "Nano Banana Pro", 19, "Professional AI image editing with 500 generations per month")
  const EnterpriseDetails: PlanDetails :=
    PlanDetails("enterprise", "Nano Banana Enterprise", 99, "Enterprise AI image editing with unlimited generations")

  /** `searchParams.get('plan') || 'pro'` */
  function PlanParam(param: Option<string>): (key: string)
    ensures key != ""
    ensures Truthy(param) ==> key == param.value
    ensures !Truthy(param) ==> key == "pro"
  {
    OrElse(param, "pro")
  }

  /** The names a plain object literal inherits from `Object.prototype`. */
  const ObjectPrototypeNames: set<string> := {
    "constructor", "__proto__", "toString", "toLocaleString", "valueOf", "hasOwnProperty",
    "isPrototypeOf", "propertyIsEnumerable", "__defineGetter__", "__defineSetter__",
    "__lookupGetter__", "__lookupSetter__"}

  /** What `planDetails[planId] || planDetails.pro` yields in JavaScript. */
  datatype PlanEntry = OwnEntry(details: PlanDetails) | InheritedMember(name: string)

  /**
   * The lookup as written: an own entry, an inherited member (a truthy
   * function or object, so the `|| planDetails.pro` fallback never fires),
   * or the pro plan.
   */
  function PlanLookupAsWritten(param: Option<string>): (e: PlanEntry)
    ensures PlanParam(param) in ObjectPrototypeNames ==> e == InheritedMember(PlanParam(param))
  {
    var key := PlanParam(param);
    if key == "pro" then OwnEntry(ProDetails)
    else if key == "enterprise" then OwnEntry(EnterpriseDetails)
    else if key in ObjectPrototypeNames then InheritedMember(key)
    else OwnEntry(ProDetails)
  }

  /** `?plan=toString` is an unknown plan, yet the page does not fall back to the pro plan. */
  lemma InheritedNameDefeatsFallback()
    ensures PlanLookupAsWritten(Some("toString")) != OwnEntry(ProDetails)
    ensures PlanLookupAsWritten(Some("constructor")).InheritedMember?
  {
  }

  /** The lookup as intended: own entries only, any other value falls back to pro. */
  function PlanFor(param: Option<string>): (p: PlanDetails)
    ensures p == EnterpriseDetails <==> param == Some("enterprise")
    ensures p != EnterpriseDetails ==> p == ProDetails
    ensures PlanLookupAsWritten(param).OwnEntry? ==> PlanLookupAsWritten(param).details == p
  {
    if PlanParam(param) == "enterprise" then EnterpriseDetails else ProDetails
  }

  // ---------------------------------------------------------------------------
  // The form state
  // ---------------------------------------------------------------------------

  /**
   * The page's form. Each input's change handler stores its filtered value
   * (`handleInputChange(field, format(e.target.value))`); the formatted
   * fields therefore always hold a value their formatter leaves unchanged.
   */
  class CheckoutForm {
    var cardNumber: string
    var expiry: string
    var cvc: string
    var name: string
    var email: string
    var isProcessing: bool
    const planParam: string
    const plan: PlanDetails

    ghost predicate Valid()
      reads this
    {
      && FormattedCard(cardNumber) == cardNumber && |cardNumber| <= 19
      && FormatExpiry(expiry) == expiry && |expiry| <= 5
      && AllDigits(cvc)
    }

    constructor (param: Option<string>)
      ensures Valid() && !isProcessing
      ensures cardNumber == "" && expiry == "" && cvc == "" && name == "" && email == ""
      ensures planParam == PlanParam(param) && plan == PlanFor(param)
    {
      cardNumber, expiry, cvc, name, email := "", "", "", "", "";
      isProcessing := false;
      planParam := PlanParam(param);
      plan := PlanFor(param);
      assert FormattedCard("") == "";
    }

    method ChangeCardNumber(value: string)
      requires Valid()
      modifies this
      ensures Valid() && cardNumber == FormattedCard(value)
      ensures expiry == old(expiry) && cvc == old(cvc) && name == old(name) && email == old(email)
      ensures isProcessing == old(isProcessing)
    {
      var formatted := FormatCardNumber(value);
      CardNumberIdempotent(value);
      CardNumberShape(value);
      cardNumber := formatted;
    }

    method ChangeExpiry(value: string)
      requires Valid()
      modifies this
      ensures Valid() && expiry == FormatExpiry(value)
      ensures cardNumber == old(cardNumber) && cvc == old(cvc) && name == old(name) && email == old(email)
      ensures isProcessing == old(isProcessing)
    {
      ExpiryIdempotent(value);
      expiry := FormatExpiry(value);
    }

    method ChangeCvc(value: string)
      requires Valid()
      modifies this
      ensures Valid() && cvc == Digits(value)
      ensures cardNumber == old(cardNumber) && expiry == old(expiry) && name == old(name) && email == old(email)
      ensures isProcessing == old(isProcessing)
    {
      cvc := Digits(value);
    }

    method ChangeName(value: string)
      requires Valid()
      modifies this
      ensures Valid() && name == value
      ensures cardNumber == old(cardNumber) && expiry == old(expiry) && cvc == old(cvc) && email == old(email)
      ensures isProcessing == old(isProcessing)
    {
      name := value;
    }

    method ChangeEmail(value: string)
      requires Valid()
      modifies this
      ensures Valid() && email == value
      ensures cardNumber == old(cardNumber) && expiry == old(expiry) && cvc == old(cvc) && name == old(name)
      ensures isProcessing == old(isProcessing)
    {
      email := value;
    }

    /** `handleSubmit`: mark processing, then go to the success page with a mock session id and the raw plan parameter. */
    method Submit(mockSessionId: string) returns (navigateTo: string)
      requires Valid()
      modifies this`isProcessing
      ensures Valid() && isProcessing
      ensures navigateTo == "/checkout/success?session_id=" + mockSessionId + "&plan=" + planParam
    {
      isProcessing := true;
      navigateTo := "/checkout/success?session_id=" + mockSessionId + "&plan=" + planParam;
    }
  }
}
