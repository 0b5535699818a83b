/**
 * The form schemas (lib/validations.ts) and the amount parsing they share with
 * the service and the modal: `Number.parseFloat(amount.replace(",", "."))`.
 *
 * parseFloat is modelled on decimal text: leading white space, an optional
 * sign, digits, an optional '.' and more digits, read as the longest prefix of
 * that shape; no such prefix is NaN (None here).
 */
module Validation {
  import opened Model

  // ---------------------------------------------------------------------------
  // Decimal text

  predicate IsDigit(c: char) {
    '0' <= c <= '9'
  }

  predicate AllDigits(s: string) {
    forall i :: 0 <= i < |s| ==> IsDigit(s[i])
  }

  function DigitValue(c: char): (d: nat)
    requires IsDigit(c)
    ensures d <= 9
  {
    c as int - '0' as int
  }

  /** The longest prefix of `s` made of digits. */
  function LeadingDigits(s: string): (r: string)
    ensures |r| <= |s| && r == s[..|r|] && AllDigits(r)
    ensures |r| < |s| ==> !IsDigit(s[|r|])
  {
    if s != [] && IsDigit(s[0]) then [s[0]] + LeadingDigits(s[1..]) else []
  }

  /** The value of a digit string, most significant digit first. */
  function NaturalValue(ds: string): nat
    requires AllDigits(ds)
  {
    if ds == [] then 0 else NaturalValue(ds[..|ds| - 1]) * 10 + DigitValue(ds[|ds| - 1])
  }

  function Pow10(n: nat): (p: nat)
    ensures p >= 1
  {
    if n == 0 then 1 else 10 * Pow10(n - 1)
  }

  /** The value of the digits after a decimal point. */
  function FractionValue(ds: string): (x: real)
    requires AllDigits(ds)
    ensures 0.0 <= x < 1.0
  {
    if ds == [] then 0.0 else (DigitValue(ds[0]) as real + FractionValue(ds[1..])) / 10.0
  }

  /** The white space parseFloat skips (the ASCII part of JavaScript's set). */
  predicate IsSpace(c: char) {
    c == ' ' || c == '\t' || c == '\n' || c == '\r' || c == '\U{000B}' || c == '\U{000C}'
  }

  /** `s` without its leading white space: everything dropped is white space, and what is left does not start with it. */
  function TrimStart(s: string): (r: string)
    ensures |r| <= |s| && r == s[|s| - |r|..]
    ensures forall i :: 0 <= i < |s| - |r| ==> IsSpace(s[i])
    ensures r != [] ==> !IsSpace(r[0])
  {
    if s != [] && IsSpace(s[0]) then TrimStart(s[1..]) else s
  }

  /** The digits after a leading '.', if there is one. */
  function FractionDigits(rest: string): (r: string)
    ensures AllDigits(r)
    ensures rest != [] && rest[0] == '.' ==>
      && |r| < |rest| && r == rest[1..|r| + 1]
      && (|r| + 1 < |rest| ==> !IsDigit(rest[|r| + 1]))
    ensures rest == [] || rest[0] != '.' ==> r == []
  {
    if rest != [] && rest[0] == '.' then LeadingDigits(rest[1..]) else []
  }

  /** An unsigned decimal prefix: digits, then optionally '.' and digits; at least one digit. */
  function ParseUnsigned(body: string): (r: Option<real>)
    ensures r.Some? <==> (body != [] && IsDigit(body[0])) || (|body| >= 2 && body[0] == '.' && IsDigit(body[1]))
    ensures r.Some? ==> r.value >= 0.0
  {
    var whole := LeadingDigits(body);
    var fraction := FractionDigits(body[|whole|..]);
    if whole == [] && fraction == [] then None
    else Some(NaturalValue(whole) as real + FractionValue(fraction))
  }

  /** A number after the white space: an optional sign, then an unsigned decimal. */
  function ParseSigned(t: string): Option<real> {
    if t != [] && t[0] == '-' then
      match ParseUnsigned(t[1..])
      case None => None
      case Some(x) => Some(-x)
    else if t != [] && t[0] == '+' then ParseUnsigned(t[1..])
    else ParseUnsigned(t)
  }

  /**
   * `Number.parseFloat`: None stands for NaN. A number needs, after the
   * white space, a digit, a point, or a sign; only a '-' gives a negative.
   */
  function ParseFloat(s: string): (r: Option<real>)
    ensures r.Some? ==> TrimStart(s) != [] && (IsDigit(TrimStart(s)[0]) || TrimStart(s)[0] in ".+-")
    ensures r.Some? && r.value < 0.0 ==> TrimStart(s)[0] == '-'
    ensures TrimStart(s) != [] && IsDigit(TrimStart(s)[0]) ==> r == ParseUnsigned(TrimStart(s))
  {
    ParseSigned(TrimStart(s))
  }

  /** `s.replace(",", ".")`: only the first comma becomes a dot. */
  function ReplaceFirstComma(s: string): (r: string)
    ensures |r| == |s|
    ensures forall i :: 0 <= i < |s| ==> r[i] == s[i] || (s[i] == ',' && r[i] == '.')
    ensures forall i :: 0 <= i < |s| && s[i] != ',' ==> r[i] == s[i]
  {
    if s == [] then []
    else if s[0] == ',' then ['.'] + s[1..]
    else [s[0]] + ReplaceFirstComma(s[1..])
  }

  /** The first comma, at `k`, becomes a '.', and the text around it is kept. */
  lemma {:induction false} FirstCommaReplaced(s: string, k: nat)
    requires k < |s| && s[k] == ',' && ',' !in s[..k]
    ensures ReplaceFirstComma(s) == s[..k] + "." + s[k + 1..]
  {
    if k > 0 {
      assert s[0] in s[..k];
      assert s[1..][..k - 1] == s[1..k];
      FirstCommaReplaced(s[1..], k - 1);
      assert s[1..][k..] == s[k + 1..];
      assert [s[0]] + s[1..k] == s[..k];
    }
  }

  /** The number an amount field stands for (the same expression in the schema, the service and the modal). */
  function ParseAmount(s: string): (r: Option<real>)
    ensures ',' !in s ==> r == ParseFloat(s)
  {
    var t := ReplaceFirstComma(s);
    assert ',' !in s ==> t == s by {
      if ',' !in s {
        ReplaceWithoutComma(s);
      }
    }
    ParseFloat(t)
  }

  // ---------------------------------------------------------------------------
  // transactionSchema

  /** The form as filled in: every field is text, `type` may be missing. */
  datatype RawTransactionForm = RawTransactionForm(
    description: string, amount: string, category: string, kind: Option<string>)

  /** TransactionFormData: what the schema lets through (`type` narrowed to the enum). */
  datatype TransactionFormData = TransactionFormData(
    description: string, amount: string, category: string, kind: TxType)

  datatype Issue = Issue(field: string, message: string)

  datatype Result<+T, +E> = Ok(value: T) | Err(error: E)

  // ---------------------------------------------------------------------------
  // String length as JavaScript measures it

  /** The UTF-16 code units of one character: two for a character beyond U+FFFF. */
  function Utf16Units(c: char): (n: nat)
    ensures n == 1 || n == 2
  {
    if c as int >= 0x1_0000 then 2 else 1
  }

  /** A string's `.length` in JavaScript, which the schema's `min` and `max` compare: UTF-16 code units. */
  function Utf16Length(s: string): (n: nat)
    ensures |s| <= n <= 2 * |s|
    ensures n == 0 <==> s == []
  {
    if s == [] then 0 else Utf16Units(s[0]) + Utf16Length(s[1..])
  }

  /** Text within the Basic Multilingual Plane has one code unit per character. */
  lemma {:induction false} Utf16LengthOfBmp(s: string)
    requires forall i :: 0 <= i < |s| ==> s[i] as int < 0x1_0000
    ensures Utf16Length(s) == |s|
  {
    if s != [] {
      Utf16LengthOfBmp(s[1..]);
    }
  }

  /** Text made only of characters beyond U+FFFF counts twice its number of characters. */
  lemma {:induction false} Utf16LengthOfAstral(s: string)
    requires forall i :: 0 <= i < |s| ==> s[i] as int >= 0x1_0000
    ensures Utf16Length(s) == 2 * |s|
  {
    if s != [] {
      Utf16LengthOfAstral(s[1..]);
    }
  }

  /** Sixty pizza emoji are 120 code units: too long for a description, though only 60 characters. */
  lemma EmojiDescriptionTooLong()
    ensures !DescriptionValid(seq(60, i => '\U{1F355}'))
  {
    Utf16LengthOfAstral(seq(60, i => '\U{1F355}'));
  }

  /** Three pizza emoji are six code units: long enough for a password, though only three characters. */
  lemma EmojiPasswordLongEnough()
    ensures PasswordValid(seq(3, i => '\U{1F355}'))
  {
    Utf16LengthOfAstral(seq(3, i => '\U{1F355}'));
  }

  // ---------------------------------------------------------------------------
  // transactionSchema's rules

  predicate DescriptionValid(s: string) {
    1 <= Utf16Length(s) <= 100
  }

  predicate AmountPositive(s: string) {
    ParseAmount(s).Some? && ParseAmount(s).value > 0.0
  }

  predicate AmountValid(s: string) {
    Utf16Length(s) >= 1 && AmountPositive(s)
  }

  /** Checked for length only: any text is a category, listed in lib/constants.ts or not. */
  predicate CategoryValid(s: string) {
    1 <= Utf16Length(s) <= 50
  }

  function ParseTxType(s: string): Option<TxType> {
    if s == "income" then Some(Income) else if s == "expense" then Some(Expense) else None
  }

  /** The issues of one field: `min` first, then `max` or the refinement. */
  function FieldIssues(field: string, tooShort: bool, second: bool, shortMessage: string, secondMessage: string): (r: seq<Issue>)
    ensures r == [] <==> !tooShort && !second
    ensures |r| <= 2
    ensures forall i :: 0 <= i < |r| ==> r[i].field == field
  {
    (if tooShort then [Issue(field, shortMessage)] else [])
    + (if second then [Issue(field, secondMessage)] else [])
  }

  function TypeIssues(kind: Option<string>): (r: seq<Issue>)
    ensures r == [] <==> kind.Some? && ParseTxType(kind.value).Some?
    ensures |r| <= 1
    ensures forall i :: 0 <= i < |r| ==> r[i].field == "type"
  {
    match kind
    case None => [Issue("type", "Tipo é obrigatório")]
    case Some(k) =>
      if ParseTxType(k).Some? then []
      else [Issue("type", "Invalid enum value. Expected 'income' | 'expense', received '" + k + "'")]
  }

  /** The schema's fields. */
  predicate SchemaField(f: string) {
    f == "description" || f == "amount" || f == "category" || f == "type"
  }

  /**
   * The issues the schema reports, field by field, in the schema's order:
   * none exactly when every rule holds, at most two per field, each naming
   * one of the schema's fields.
   */
  function TransactionIssues(form: RawTransactionForm): (r: seq<Issue>)
    ensures r == [] <==>
      && DescriptionValid(form.description)
      && AmountValid(form.amount)
      && CategoryValid(form.category)
      && form.kind.Some? && ParseTxType(form.kind.value).Some?
    ensures |r| <= 7
    ensures forall i :: 0 <= i < |r| ==> SchemaField(r[i].field)
  {
    var description := FieldIssues("description",
      Utf16Length(form.description) < 1, Utf16Length(form.description) > 100,
      "Descrição é obrigatória", "Descrição muito longa");
    var amount := FieldIssues("amount",
      Utf16Length(form.amount) < 1, !AmountPositive(form.amount),
      "Valor é obrigatório", "Valor deve ser maior que zero");
    var category := FieldIssues("category",
      Utf16Length(form.category) < 1, Utf16Length(form.category) > 50,
      "Categoria é obrigatória", "Categoria muito longa");
    var kind := TypeIssues(form.kind);
    IssuesOfSchemaFields(description, amount);
    IssuesOfSchemaFields(description + amount, category);
    IssuesOfSchemaFields(description + amount + category, kind);
    description + amount + category + kind
  }

  /** Issues that each name a schema field still do after concatenation. */
  lemma IssuesOfSchemaFields(x: seq<Issue>, y: seq<Issue>)
    requires forall i :: 0 <= i < |x| ==> SchemaField(x[i].field)
    requires forall i :: 0 <= i < |y| ==> SchemaField(y[i].field)
    ensures forall i :: 0 <= i < |x + y| ==> SchemaField((x + y)[i].field)
  {
  }

  /** transactionSchema.safeParse: the typed record, or every issue found. */
  function ValidateTransaction(form: RawTransactionForm): (r: Result<TransactionFormData, seq<Issue>>)
    ensures r.Ok? <==>
      && DescriptionValid(form.description)
      && AmountValid(form.amount)
      && CategoryValid(form.category)
      && form.kind.Some? && (form.kind.value == "income" || form.kind.value == "expense")
    ensures r.Ok? ==>
      && r.value.description == form.description && r.value.amount == form.amount
      && r.value.category == form.category && TxTypeName(r.value.kind) == form.kind.value
    ensures r.Ok? ==> ParseAmount(r.value.amount).Some? && ParseAmount(r.value.amount).value > 0.0
    ensures r.Err? ==> |r.error| > 0
  {
    var issues := TransactionIssues(form);
    if issues == [] then
      Ok(TransactionFormData(form.description, form.amount, form.category, ParseTxType(form.kind.value).value))
    else Err(issues)
  }

  // ---------------------------------------------------------------------------
  // loginSchema

  datatype LoginForm = LoginForm(email: string, password: string)

  predicate PasswordValid(p: string) {
    Utf16Length(p) >= 6
  }

  /**
   * loginSchema: the address check of the validation library is an input
   * (`wellFormedEmail`); the schema adds that the email is non-empty and the
   * password has at least six characters.
   */
  predicate LoginValid(form: LoginForm, wellFormedEmail: bool) {
    wellFormedEmail && Utf16Length(form.email) >= 1 && PasswordValid(form.password)
  }

  /** loginSchema.safeParse: every check runs, and each failure is one issue, in the schema's order. */
  function ValidateLogin(form: LoginForm, wellFormedEmail: bool): (r: Result<LoginForm, seq<Issue>>)
    ensures r.Ok? <==> LoginValid(form, wellFormedEmail)
    ensures r.Ok? ==> r.value == form
    ensures r.Err? ==> 1 <= |r.error| <= 3
    ensures r.Err? && !PasswordValid(form.password) ==>
      r.error[|r.error| - 1] == Issue("password", "A senha deve ter no mínimo 6 caracteres")
  {
    var issues :=
      (if !wellFormedEmail then [Issue("email", "Email inválido")] else [])
      + (if Utf16Length(form.email) < 1 then [Issue("email", "Email é obrigatório")] else [])
      + (if !PasswordValid(form.password) then [Issue("password", "A senha deve ter no mínimo 6 caracteres")] else []);
    if issues == [] then Ok(form) else Err(issues)
  }

  // ---------------------------------------------------------------------------
  // The value parseFloat reads

  /** Read from the left, the first of n digits is worth 10^(n-1) times itself. */
  lemma {:induction false} NaturalValueOfCons(ds: string)
    requires AllDigits(ds) && ds != []
    ensures NaturalValue(ds) == DigitValue(ds[0]) * Pow10(|ds| - 1) + NaturalValue(ds[1..])
  {
    var n := |ds|;
    if n == 1 {
      assert ds[..0] == [] && ds[1..] == [];
    } else {
      var init, tail := ds[..n - 1], ds[1..];
      NaturalValueOfCons(init);
      assert init[0] == ds[0] && init[1..] == tail[..n - 2] && tail[n - 2] == ds[n - 1];
      AppendDigitStep(DigitValue(ds[0]), n - 2, NaturalValue(tail[..n - 2]), DigitValue(ds[n - 1]),
        NaturalValue(ds), NaturalValue(tail));
    }
  }

  /** Digits written one after the other: `a` is shifted left by the length of `b`. */
  lemma {:induction false} NaturalValueOfAppend(a: string, b: string)
    requires AllDigits(a) && AllDigits(b)
    ensures AllDigits(a + b)
    ensures NaturalValue(a + b) == NaturalValue(a) * Pow10(|b|) + NaturalValue(b)
  {
    if b == [] {
      assert a + b == a;
    } else {
      var ab, front := a + b, b[..|b| - 1];
      NaturalValueOfAppend(a, front);
      assert ab[..|ab| - 1] == a + front && ab[|ab| - 1] == b[|b| - 1];
      AppendDigitStep(NaturalValue(a), |front|, NaturalValue(front), DigitValue(b[|b| - 1]),
        NaturalValue(ab), NaturalValue(b));
    }
  }

  /** The arithmetic of appending one digit: if v = (w·10^k + m)·10 + d and u = m·10 + d, then v = w·10^(k+1) + u. */
  lemma AppendDigitStep(w: nat, k: nat, m: nat, d: nat, v: nat, u: nat)
    requires v == (w * Pow10(k) + m) * 10 + d && u == m * 10 + d
    ensures v == w * Pow10(k + 1) + u
  {
    assert w * Pow10(k + 1) == (w * Pow10(k)) * 10;
  }

  /** `x` with its decimal point moved `places` places to the right: x·10^places. */
  function Shifted(x: real, places: nat): real {
    x * (Pow10(places) as real)
  }

  /** The fraction digits d1..dn are worth exactly the integer d1..dn divided by 10^n. */
  lemma {:induction false} FractionScaled(ds: string)
    requires AllDigits(ds)
    ensures Shifted(FractionValue(ds), |ds|) == NaturalValue(ds) as real
  {
    if ds != [] {
      FractionScaled(ds[1..]);
      ShiftDigit(ds);
    }
  }

  /** One step of FractionScaled: putting a digit in front of the fraction. */
  lemma ShiftDigit(ds: string)
    requires AllDigits(ds) && ds != []
    requires Shifted(FractionValue(ds[1..]), |ds| - 1) == NaturalValue(ds[1..]) as real
    ensures Shifted(FractionValue(ds), |ds|) == NaturalValue(ds) as real
  {
    NaturalValueOfCons(ds);
    ShiftStep(DigitValue(ds[0]), FractionValue(ds[1..]), |ds| - 1, NaturalValue(ds[1..]),
      FractionValue(ds), NaturalValue(ds));
  }

  /** The arithmetic of that step: if f·10^k = m, then ((d + f) / 10)·10^(k+1) = d·10^k + m. */
  lemma ShiftStep(d: nat, f: real, k: nat, m: nat, x: real, n: nat)
    requires Shifted(f, k) == m as real
    requires x == (d as real + f) / 10.0 && n == d * Pow10(k) + m
    ensures Shifted(x, k + 1) == n as real
  {
    var p := Pow10(k) as real;
    assert Pow10(k + 1) as real == 10.0 * p;
    assert x * 10.0 == d as real + f;
    assert x * (10.0 * p) == (x * 10.0) * p;
    assert (d as real + f) * p == d as real * p + f * p;
  }

  /** A decimal `w.f` is the integer of all its digits over 10^|f|: "12.50" is 1250 / 100. */
  lemma ParseUnsignedValue(body: string)
    requires ParseUnsigned(body).Some?
    ensures var whole := LeadingDigits(body);
      var fraction := FractionDigits(body[|whole|..]);
      && AllDigits(whole + fraction)
      && Shifted(ParseUnsigned(body).value, |fraction|) == NaturalValue(whole + fraction) as real
  {
    var whole := LeadingDigits(body);
    var fraction := FractionDigits(body[|whole|..]);
    FractionScaled(fraction);
    NaturalValueOfAppend(whole, fraction);
    AddScaled(NaturalValue(whole), FractionValue(fraction), |fraction|, NaturalValue(fraction),
      ParseUnsigned(body).value, NaturalValue(whole + fraction));
  }

  /** If f·10^k = m, then (w + f)·10^k = w·10^k + m. */
  lemma AddScaled(w: nat, f: real, k: nat, m: nat, x: real, n: nat)
    requires Shifted(f, k) == m as real
    requires x == w as real + f && n == w * Pow10(k) + m
    ensures Shifted(x, k) == n as real
  {
    var p := Pow10(k) as real;
    assert (w as real + f) * p == w as real * p + f * p;
  }

  /** Leading white space does not change the number read. */
  lemma ParseFloatSkipsSpace(c: char, s: string)
    requires IsSpace(c)
    ensures ParseFloat([c] + s) == ParseFloat(s)
  {
    assert TrimStart([c] + s) == TrimStart(s) by {
      assert ([c] + s)[1..] == s;
    }
  }

  /** Text that starts a number without a sign or white space. */
  predicate Unsigned(t: string) {
    t != [] && !IsSpace(t[0]) && t[0] != '-' && t[0] != '+'
  }

  /** A '-' in front negates the number, and NaN stays NaN. */
  lemma ParseFloatNegative(t: string)
    requires Unsigned(t)
    ensures ParseFloat("-" + t).Some? <==> ParseFloat(t).Some?
    ensures ParseFloat(t).Some? ==> ParseFloat("-" + t).value == -ParseFloat(t).value
  {
    var minus := "-" + t;
    var u := ParseUnsigned(t);
    assert ParseFloat(t) == u by {
      assert TrimStart(t) == t;
    }
    assert ParseSigned(minus) == if u.None? then None else Some(-u.value) by {
      assert minus[0] == '-' && minus[1..] == t;
    }
    assert ParseFloat(minus) == ParseSigned(minus) by {
      assert TrimStart(minus) == minus;
    }
  }

  /** A '+' in front changes nothing. */
  lemma ParseFloatPlus(t: string)
    requires Unsigned(t)
    ensures ParseFloat("+" + t) == ParseFloat(t)
  {
    var plus := "+" + t;
    assert ParseFloat(t) == ParseUnsigned(t) by {
      assert TrimStart(t) == t;
    }
    assert ParseFloat(plus) == ParseSigned(plus) by {
      assert TrimStart(plus) == plus;
    }
    assert plus[1..] == t;
  }

  // ---------------------------------------------------------------------------
  // Properties of the amount rule

  lemma {:induction false} NaturalValueOfZeros(ds: string)
    requires forall i :: 0 <= i < |ds| ==> ds[i] == '0'
    ensures AllDigits(ds) && NaturalValue(ds) == 0
    decreases |ds|
  {
    if ds != [] {
      NaturalValueOfZeros(ds[..|ds| - 1]);
    }
  }

  lemma {:induction false} FractionValueOfZeros(ds: string)
    requires forall i :: 0 <= i < |ds| ==> ds[i] == '0'
    ensures AllDigits(ds) && FractionValue(ds) == 0.0
    decreases |ds|
  {
    if ds != [] {
      FractionValueOfZeros(ds[1..]);
    }
  }

  /** A digit string has a positive value exactly when some digit is not '0'. */
  lemma {:induction false} NaturalValuePositive(ds: string)
    requires AllDigits(ds)
    ensures NaturalValue(ds) > 0 <==> exists i :: 0 <= i < |ds| && ds[i] != '0'
    decreases |ds|
  {
    if ds != [] {
      var init := ds[..|ds| - 1];
      NaturalValuePositive(init);
      if exists i :: 0 <= i < |init| && init[i] != '0' {
        var i :| 0 <= i < |init| && init[i] != '0';
        assert ds[i] != '0';
      }
      if exists i :: 0 <= i < |ds| && ds[i] != '0' {
        var i :| 0 <= i < |ds| && ds[i] != '0';
        if i < |ds| - 1 {
          assert init[i] != '0';
        }
      }
    }
  }

  /** Text of zeros, commas and dots reads as zero, or as no number at all. */
  lemma ZeroTextValue(t: string)
    requires forall i :: 0 <= i < |t| ==> t[i] == '0' || t[i] == ',' || t[i] == '.'
    ensures ParseUnsigned(t).None? || ParseUnsigned(t).value == 0.0
  {
    var whole := LeadingDigits(t);
    forall i | 0 <= i < |whole|
      ensures whole[i] == '0'
    {
      assert whole[i] == t[i] && IsDigit(whole[i]);
    }
    NaturalValueOfZeros(whole);
    var rest := t[|whole|..];
    var fraction := FractionDigits(rest);
    if rest != [] && rest[0] == '.' {
      var after := rest[1..];
      forall i | 0 <= i < |fraction|
        ensures fraction[i] == '0'
      {
        assert fraction[i] == after[i] && IsDigit(fraction[i]);
        assert after[i] == t[|whole| + 1 + i];
      }
      FractionValueOfZeros(fraction);
    }
  }

  /** Text made only of '0' and ',' is never an accepted amount: "0", "0,00" and "," are all rejected. */
  lemma ZeroAmountsRejected(s: string)
    requires forall i :: 0 <= i < |s| ==> s[i] == '0' || s[i] == ','
    ensures !AmountValid(s)
  {
    var t := ReplaceFirstComma(s);
    assert forall i :: 0 <= i < |t| ==> t[i] == '0' || t[i] == ',' || t[i] == '.';
    assert TrimStart(t) == t;
    assert ParseFloat(t) == ParseUnsigned(t);
    ZeroTextValue(t);
  }

  lemma ReplaceWithoutComma(s: string)
    requires forall i :: 0 <= i < |s| ==> s[i] != ','
    ensures ReplaceFirstComma(s) == s
  {
  }

  lemma LeadingDigitsOfDigits(s: string)
    requires AllDigits(s)
    ensures LeadingDigits(s) == s
  {
  }

  /** Digits never contain a comma, a space or a sign, so they parse as their integer value. */
  lemma ParseDigits(s: string)
    requires |s| >= 1 && AllDigits(s)
    ensures ParseAmount(s) == Some(NaturalValue(s) as real)
  {
    ReplaceWithoutComma(s);
    assert TrimStart(s) == s by {
      assert !IsSpace(s[0]);
    }
    LeadingDigitsOfDigits(s);
    assert ParseUnsigned(s) == Some(NaturalValue(s) as real) by {
      assert s[|s|..] == [];
    }
  }

  /** A digit string is accepted exactly when one of its digits is not '0'; it then means its integer value. */
  lemma DigitAmounts(s: string)
    requires |s| >= 1 && AllDigits(s)
    ensures ParseAmount(s) == Some(NaturalValue(s) as real)
    ensures AmountValid(s) <==> exists i :: 0 <= i < |s| && s[i] != '0'
  {
    ParseDigits(s);
    NaturalValuePositive(s);
  }

  /** "12,50" with its comma replaced. */
  lemma CommaToDotExample()
    ensures ReplaceFirstComma("12,50") == "12.50"
  {
    assert "12,50"[1..] == "2,50";
    assert "2,50"[1..] == ",50";
    assert ",50"[1..] == "50";
  }

  /** "12.50" reads as twelve and a half. */
  lemma TwelveAndAHalf()
    ensures ParseUnsigned("12.50") == Some(12.5)
  {
    var t := "12.50";
    assert LeadingDigits(t) == "12" by {
      assert t[1..] == "2.50";
      assert "2.50"[1..] == ".50";
    }
    assert NaturalValue("12") == 12 by {
      assert "12"[..1] == "1";
      assert "1"[..0] == [];
    }
    assert FractionDigits(t[2..]) == "50" by {
      assert t[2..] == ".50";
      assert ".50"[1..] == "50";
      assert "50"[1..] == "0";
      assert "0"[1..] == [];
    }
    assert FractionValue("50") == 0.5 by {
      assert "50"[1..] == "0";
      assert "0"[1..] == [];
    }
  }

  /** The decimal comma: "12,50" is twelve and a half, and an accepted amount. */
  lemma DecimalCommaExample()
    ensures ParseAmount("12,50") == Some(12.5)
    ensures AmountValid("12,50")
  {
    CommaToDotExample();
    assert TrimStart("12.50") == "12.50";
    TwelveAndAHalf();
    assert ParseFloat("12.50") == Some(12.5);
  }
}
