/** The field-validation rules the entity validators use, with the meaning the
    ozzo-validation library gives them. The library is not part of this model;
    its format checks (e-mail, URL, date) are opaque and enter as the
    function-valued fields of `Formats`. */
module Validation {
  import opened Wrappers
  import Regex

  /** The library's format predicates, which this model does not interpret. */
  datatype Formats = Formats(
    isEmail: string -> bool,
    isUrl: string -> bool,
    isDate: (string, string) -> bool)  // layout, value

  datatype Rule =
    | Required
    | Length(min: nat, max: nat)
    | In(allowed: set<string>)
    | Match(pattern: Regex.Pattern)
    | IsEmail
    | IsUrl
    | Date(layout: string)

  /** What a failing rule reports. */
  datatype RuleError =
    | Blank
    | BadLength(min: nat, max: nat)
    | NotAllowed
    | NoMatch
    | NotEmail
    | NotUrl
    | NotDate

  /** The fields the validators check, each standing for its JSON name. */
  datatype Field =
    | Title | Description | Reference1Label | Reference2Label | EmailLink
    | PaymentButton | SplitPaymentField | Email | CollectionId | Mobile | Name
    | Amount | CallbackUrl | DueAt | RedirectUrl | Reference1 | Reference2
    | IdNo | AccNo | Code

  /** The JSON name that keys a field's entry in an aggregated error. */
  function JsonName(k: Field): string {
    match k
    case Title => "title"
    case Description => "description"
    case Reference1Label => "reference_1_label"
    case Reference2Label => "reference_2_label"
    case EmailLink => "email_link"
    case PaymentButton => "payment_button"
    case SplitPaymentField => "split_payment"
    case Email => "email"
    case CollectionId => "collection_id"
    case Mobile => "mobile"
    case Name => "name"
    case Amount => "amount"
    case CallbackUrl => "callback_url"
    case DueAt => "due_at"
    case RedirectUrl => "redirect_url"
    case Reference1 => "reference_1"
    case Reference2 => "reference_2"
    case IdNo => "id_no"
    case AccNo => "acc_no"
    case Code => "code"
  }

  /** Distinct fields have distinct JSON names, so keying by `Field` is keying
      by JSON name. */
  lemma JsonNameInjective(a: Field, b: Field)
    ensures JsonName(a) == JsonName(b) <==> a == b
  {
  }

  /** The entry of one field in an aggregated error: a rule failure, or the
      errors of a nested record. */
  datatype FieldError = Failed(error: RuleError) | Nested(errors: map<Field, RuleError>)

  /** Field ↦ error; the empty map is Go's nil error. */
  type FieldErrors = map<Field, FieldError>

  /** The aggregated error as the library builds it: keyed by JSON name. */
  function JsonKeyed(e: FieldErrors): (r: map<string, FieldError>)
    ensures forall k :: JsonName(k) in r <==> k in e
    ensures forall k | k in e :: r[JsonName(k)] == e[k]
    ensures forall name | name in r :: exists k :: k in e && JsonName(k) == name
  {
    forall a, b ensures JsonName(a) == JsonName(b) ==> a == b {
      JsonNameInjective(a, b);
    }
    map k | k in e :: JsonName(k) := e[k]
  }

  /** The error a rule reports when it fails. */
  function Violation(rule: Rule): RuleError {
    match rule
    case Required => Blank
    case Length(min, max) => BadLength(min, max)
    case In(_) => NotAllowed
    case Match(_) => NoMatch
    case IsEmail => NotEmail
    case IsUrl => NotUrl
    case Date(_) => NotDate
  }

  /** Number of bytes of `c` in UTF-8. */
  function Utf8Width(c: char): (w: nat)
    ensures 1 <= w <= 4
    ensures w == 1 <==> c as int < 0x80
  {
    if c as int < 0x80 then 1
    else if c as int < 0x800 then 2
    else if c as int < 0x1_0000 then 3
    else 4
  }

  /** Length of `s` in bytes once encoded as UTF-8, which is what Go's `len`
      and the library's `Length` rule measure. A string has at least as many
      bytes as characters and at most four times as many; only the empty
      string has no bytes. */
  function Utf8Length(s: string): (n: nat)
    ensures |s| <= n <= 4 * |s|
    ensures n == 0 <==> s == ""
  {
    if |s| == 0 then 0 else Utf8Width(s[0]) + Utf8Length(s[1..])
  }

  /** The byte length of a concatenation is the sum of the parts' lengths. */
  lemma {:induction false} Utf8LengthAppend(a: string, b: string)
    ensures Utf8Length(a + b) == Utf8Length(a) + Utf8Length(b)
  {
    if |a| > 0 {
      assert (a + b)[0] == a[0];
      assert (a + b)[1..] == a[1..] + b;
      Utf8LengthAppend(a[1..], b);
    } else {
      assert a + b == b;
    }
  }

  predicate IsAscii(s: string) {
    forall i | 0 <= i < |s| :: s[i] as int < 0x80
  }

  /** For ASCII text, bytes and characters coincide. */
  lemma {:induction false} AsciiUtf8Length(s: string)
    requires IsAscii(s)
    ensures Utf8Length(s) == |s|
  {
    if |s| > 0 {
      assert IsAscii(s[1..]) by {
        forall i | 0 <= i < |s[1..]| ensures s[1..][i] as int < 0x80 {
          assert s[1..][i] == s[i + 1];
        }
      }
      AsciiUtf8Length(s[1..]);
    }
  }

  /** Whether a non-empty string satisfies `rule`. */
  predicate Holds(rule: Rule, s: string, f: Formats) {
    match rule
    case Required => s != ""
    case Length(min, max) =>
      var n := Utf8Length(s);
      !((min > 0 && n < min) || (max > 0 && n > max))
    case In(allowed) => s in allowed
    case Match(p) => Regex.MatchString(p, s)
    case IsEmail => f.isEmail(s)
    case IsUrl => f.isUrl(s)
    case Date(layout) => f.isDate(layout, s)
  }

  /** One rule applied to a string value. Every rule except `Required`
      accepts the empty string. */
  function Apply(rule: Rule, s: string, f: Formats): (r: Option<RuleError>)
    ensures !rule.Required? && s == "" ==> r == None
    ensures rule.Required? ==> (r.Some? <==> s == "")
    ensures s != "" ==> (r.None? <==> Holds(rule, s, f))
    ensures r.Some? ==> r.value == Violation(rule)
  {
    if rule.Required? then
      if s == "" then Some(Blank) else None
    else if s == "" || Holds(rule, s, f) then None
    else Some(Violation(rule))
  }

  /** The library's `Validate(value, rules...)` on a string: the error of the
      first rule that fails, in order, or none when every rule passes. */
  function Validate(s: string, rules: seq<Rule>, f: Formats): (r: Option<RuleError>)
    ensures r.None? <==> forall i | 0 <= i < |rules| :: Apply(rules[i], s, f).None?
    ensures r.Some? ==> exists i | 0 <= i < |rules| ::
      && Apply(rules[i], s, f) == r
      && forall j | 0 <= j < i :: Apply(rules[j], s, f).None?
  {
    if |rules| == 0 then None
    else
      var first := Apply(rules[0], s, f);
      if first.Some? then first
      else
        var r := Validate(s, rules[1..], f);
        assert forall i | 1 <= i < |rules| :: rules[1..][i - 1] == rules[i];
        if r.Some? then
          var i :| 0 <= i < |rules[1..]| && Apply(rules[1..][i], s, f) == r
                   && forall j | 0 <= j < i :: Apply(rules[1..][j], s, f).None?;
          assert Apply(rules[i + 1], s, f) == r;
          r
        else r
  }

  /** A single rule validates as that rule alone. */
  lemma ValidateOne(s: string, a: Rule, f: Formats)
    ensures Validate(s, [a], f) == Apply(a, s, f)
  {
    assert [a][1..] == [];
  }

  /** Two rules report the first one's error, else the second one's. */
  lemma ValidateTwo(s: string, a: Rule, b: Rule, f: Formats)
    ensures Validate(s, [a, b], f)
         == if Apply(a, s, f).Some? then Apply(a, s, f) else Apply(b, s, f)
  {
    assert [a, b][1..] == [b];
    ValidateOne(s, b, f);
  }

  /** A field whose only rule is `Required`. */
  function CheckRequired(s: string, f: Formats): (e: Option<FieldError>)
    ensures e.Some? <==> s == ""
    ensures e.Some? ==> e.value == Failed(Blank)
  {
    ValidateOne(s, Required, f);
    FieldOf(Validate(s, [Required], f))
  }

  /** A field checked by `Required` then `Length(1, max)`. */
  function CheckRequiredLength(s: string, max: nat, f: Formats): (e: Option<FieldError>)
    requires max > 0
    ensures e.Some? <==> s == "" || Utf8Length(s) > max
    ensures e.Some? ==> e.value == Failed(if s == "" then Blank else BadLength(1, max))
  {
    ValidateTwo(s, Required, Length(1, max), f);
    FieldOf(Validate(s, [Required, Length(1, max)], f))
  }

  /** A field checked only by `Length(0, max)`: at most `max` bytes; a zero
      `max` places no bound. */
  function CheckMaxLength(s: string, max: nat, f: Formats): (e: Option<FieldError>)
    ensures e.Some? <==> max > 0 && Utf8Length(s) > max
    ensures e.Some? ==> e.value == Failed(BadLength(0, max))
  {
    ValidateOne(s, Length(0, max), f);
    FieldOf(Validate(s, [Length(0, max)], f))
  }

  /** A field checked by one rule other than `Required`: an empty value passes. */
  function CheckOptional(s: string, rule: Rule, f: Formats): (e: Option<FieldError>)
    requires !rule.Required?
    ensures e.Some? <==> s != "" && !Holds(rule, s, f)
    ensures e.Some? ==> e.value == Failed(Violation(rule))
  {
    ValidateOne(s, rule, f);
    FieldOf(Validate(s, [rule], f))
  }

  /** A field checked by `Required` then one more rule. */
  function CheckRequiredThen(s: string, rule: Rule, f: Formats): (e: Option<FieldError>)
    requires !rule.Required?
    ensures e.Some? <==> s == "" || !Holds(rule, s, f)
    ensures e.Some? ==> e.value == Failed(if s == "" then Blank else Violation(rule))
  {
    ValidateTwo(s, Required, rule, f);
    FieldOf(Validate(s, [Required, rule], f))
  }

  /** `Required` on an unsigned amount: zero is the empty value. */
  function RequireAmount(n: nat): (r: Option<RuleError>)
    ensures r.Some? <==> n == 0
    ensures r.Some? ==> r.value == Blank
  {
    if n == 0 then Some(Blank) else None
  }

  /** The library's `Errors.Filter`: drops the fields whose check passed.
      An empty result is the nil error. */
  function Filter<E>(entries: map<Field, Option<E>>): (r: map<Field, E>)
    ensures forall k :: k in r <==> k in entries && entries[k].Some?
    ensures forall k | k in r :: entries[k] == Some(r[k])
  {
    map k | k in entries && entries[k].Some? :: entries[k].value
  }

  /** A string field's entry in an aggregated error. */
  function FieldOf(r: Option<RuleError>): (e: Option<FieldError>)
    ensures e.Some? <==> r.Some?
    ensures e.Some? ==> e.value == Failed(r.value)
  {
    match r
    case None => None
    case Some(err) => Some(Failed(err))
  }

  /** A nested record's entry: its own filtered errors, nil when empty. */
  function NestedOf(inner: map<Field, RuleError>): (e: Option<FieldError>)
    ensures e.Some? <==> inner != map[]
    ensures e.Some? ==> e.value == Nested(inner)
  {
    if inner == map[] then None else Some(Nested(inner))
  }
}
