/**
 * The form validator: a mutable accumulator with a cursor (the selected field
 * name and value), a map from field name to its first error message, and an
 * ordered list of errors that belong to no field.
 *
 * `ValidatorState` and `Step` describe one call on the value level;
 * the class `Validator` holds the same four fields and each of its methods
 * is proved to perform exactly one `Step`. `Replay` runs any sequence of
 * calls, so the lemmas about it hold for any sequence of method calls.
 */
module Validator {
  import opened Wrappers
  import Strconv
  import Strings

  /** A chained check together with its argument. */
  datatype Check =
    | NotBlank
    | LE(n: int)
    | GE(n: int)
    | In(permitted: seq<string>)
    | Matches(rx: string -> bool)
    | Equal(other: string)

  /** When a check records an error for the selected value (rune count is `|value|`). */
  predicate Fails(c: Check, value: string) {
    match c
    case NotBlank => Strings.TrimSpace(value) == []
    case LE(n) => |value| > n
    case GE(n) => |value| < n
    case In(permitted) => value !in permitted
    case Matches(rx) => !rx(value)
    case Equal(other) => value != other
  }

  /** Record `message` under `field` unless the field already has a message: first error wins. */
  function AddFirst(errs: map<string, string>, field: string, message: string): map<string, string> {
    if field in errs then errs else errs[field := message]
  }

  datatype ValidatorState = ValidatorState(
    fieldName: string,
    fieldValue: string,
    nonFieldErrs: seq<string>,
    fieldErrs: map<string, string>)

  /** The zero value of the Go struct (a nil map is the empty map here). */
  const Zero: ValidatorState := ValidatorState("", "", [], map[])

  predicate NoErrors(s: ValidatorState) {
    |s.fieldErrs| == 0 && |s.nonFieldErrs| == 0
  }

  /** One call on a validator. */
  datatype Op =
    | CheckField(name: string, value: string)
    | AddFieldError(field: string, message: string)
    | AddNonFieldError(message: string)
    | RunCheck(check: Check, message: string)
    | ToInt(message: string)

  function Step(s: ValidatorState, op: Op): ValidatorState {
    match op
    case CheckField(name, value) => s.(fieldName := name, fieldValue := value)
    case AddFieldError(field, message) => s.(fieldErrs := AddFirst(s.fieldErrs, field, message))
    case AddNonFieldError(message) => s.(nonFieldErrs := s.nonFieldErrs + [message])
    case RunCheck(check, message) =>
      if Fails(check, s.fieldValue) then s.(fieldErrs := AddFirst(s.fieldErrs, s.fieldName, message)) else s
    case ToInt(message) =>
      if Strconv.AtoiSpec(s.fieldValue).err.Some? then s.(fieldErrs := AddFirst(s.fieldErrs, s.fieldName, message)) else s
  }

  function Replay(s: ValidatorState, ops: seq<Op>): ValidatorState
    decreases |ops|
  {
    if ops == [] then s else Replay(Step(s, ops[0]), ops[1..])
  }

  /** The field names a sequence of calls can put an error under, given the starting cursor. */
  function ErrorFields(start: string, ops: seq<Op>): set<string>
    decreases |ops|
  {
    if ops == [] then {start}
    else
      match ops[0]
      case CheckField(name, _) => {start} + ErrorFields(name, ops[1..])
      case AddFieldError(field, _) => {field} + ErrorFields(start, ops[1..])
      case _ => ErrorFields(start, ops[1..])
  }

  // ---------------------------------------------------------------------
  // The e-mail pattern
  // ---------------------------------------------------------------------

  predicate IsAlnum(c: char) {
    'a' <= c <= 'z' || 'A' <= c <= 'Z' || '0' <= c <= '9'
  }

  predicate IsLocalChar(c: char) {
    || IsAlnum(c)
    || c == '.' || c == '!' || c == '#' || c == '$' || c == '%' || c == '&' || c == '\''
    || c == '*' || c == '+' || c == '/' || c == '=' || c == '?' || c == '^' || c == '_'
    || c == '`' || c == '{' || c == '|' || c == '}' || c == '~' || c == '-'
  }

  /** A domain label: 1 to 63 letters, digits or hyphens, starting and ending with a letter or digit. */
  predicate IsLabel(l: string) {
    && 1 <= |l| <= 63
    && IsAlnum(l[0]) && IsAlnum(l[|l| - 1])
    && forall i :: 0 <= i < |l| ==> IsAlnum(l[i]) || l[i] == '-'
  }

  /** The index of the first `c` in `s`, or `|s|` when there is none. */
  function IndexOf(s: string, c: char): (i: nat)
    ensures i <= |s|
    ensures i < |s| ==> s[i] == c
    ensures forall j :: 0 <= j < i ==> s[j] != c
  {
    if s == [] then 0
    else if s[0] == c then 0
    else 1 + IndexOf(s[1..], c)
  }

  /** One or more labels separated by dots. */
  predicate IsDomain(d: string)
    decreases |d|
  {
    var i := IndexOf(d, '.');
    if i == |d| then IsLabel(d) else IsLabel(d[..i]) && IsDomain(d[i + 1..])
  }

  /**
   * The whole-string match of `EmailRX`: a non-empty local part of the
   * permitted characters, an '@', and a domain. No permitted character is
   * '@', so the first '@' is where the match must split.
   */
  predicate EmailRX(s: string) {
    var at := IndexOf(s, '@');
    && 1 <= at < |s|
    && (forall j :: 0 <= j < at ==> IsLocalChar(s[j]))
    && IsDomain(s[at + 1..])
  }

  lemma {:induction false} IndexOfAt(s: string, c: char, i: nat)
    requires i <= |s| && (i < |s| ==> s[i] == c)
    requires forall j :: 0 <= j < i ==> s[j] != c
    ensures IndexOf(s, c) == i
  {
    if i > 0 {
      IndexOfAt(s[1..], c, i - 1);
    }
  }

  /** An address splits at its only '@': it matches exactly when the part after the '@' is a domain. */
  lemma EmailRXSplit(local: string, domain: string)
    requires |local| >= 1 && forall j :: 0 <= j < |local| ==> IsLocalChar(local[j])
    ensures EmailRX(local + "@" + domain) <==> IsDomain(domain)
  {
    var s := local + "@" + domain;
    forall j | 0 <= j < |local| ensures s[j] != '@' {
      assert s[j] == local[j] && IsLocalChar(local[j]);
    }
    IndexOfAt(s, '@', |local|);
    assert s[|local| + 1..] == domain;
  }

  lemma EmailRXIntro(s: string, at: nat)
    requires IndexOf(s, '@') == at && 1 <= at < |s|
    requires forall j :: 0 <= j < at ==> IsLocalChar(s[j])
    requires IsDomain(s[at + 1..])
    ensures EmailRX(s)
  {
  }

  lemma GoodAddressParts()
    ensures IndexOf("abc@gmail.com", '@') == 3
    ensures forall j :: 0 <= j < 3 ==> IsLocalChar("abc@gmail.com"[j])
  {
  }

  /** Two dot-free labels joined by a dot form a domain. */
  lemma DomainOfTwoLabels(a: string, b: string)
    requires IsLabel(a) && IsLabel(b)
    requires forall j :: 0 <= j < |a| ==> a[j] != '.'
    requires forall j :: 0 <= j < |b| ==> b[j] != '.'
    ensures IsDomain(a + "." + b)
  {
    var d := a + "." + b;
    IndexOfAt(d, '.', |a|);
    assert d[..|a|] == a;
    assert d[|a| + 1..] == b;
    IndexOfAt(b, '.', |b|);
  }

  lemma GoodAddressDomain()
    ensures IsDomain("abc@gmail.com"[4..])
  {
    assert IsLabel("gmail") && IsLabel("com");
    DomainOfTwoLabels("gmail", "com");
    assert "abc@gmail.com"[4..] == "gmail" + "." + "com";
  }

  /** The address of the valid signup scenario matches. */
  lemma EmailRXAccepts()
    ensures EmailRX("abc@gmail.com")
  {
    GoodAddressParts();
    GoodAddressDomain();
    EmailRXIntro("abc@gmail.com", 3);
  }

  /** An address whose domain ends in a dot does not match: the last label is empty. */
  lemma EmailRXRejectsTrailingDot()
    ensures !EmailRX("bob@email.")
  {
    var bad := "bob@email.";
    IndexOfAt(bad, '@', 3);
    var e := bad[4..];
    assert e == "email.";
    IndexOfAt(e, '.', 5);
    var last := e[6..];
    assert last == "";
    IndexOfAt(last, '.', 0);
    assert !IsDomain(last);
    assert !IsDomain(e);
  }

  // ---------------------------------------------------------------------
  // The accumulator
  // ---------------------------------------------------------------------

  class Validator {
    var fieldName: string
    var fieldValue: string
    var nonFieldErrs: seq<string>
    var fieldErrs: map<string, string>

    /** The zero value `Validator{}`. */
    constructor ()
      ensures State() == Zero
    {
      fieldName, fieldValue := "", "";
      nonFieldErrs, fieldErrs := [], map[];
    }

    function State(): ValidatorState
      reads this
    {
      ValidatorState(fieldName, fieldValue, nonFieldErrs, fieldErrs)
    }

    /** Valid exactly when neither collection holds an error. */
    predicate IsValid()
      reads this
      ensures IsValid() <==> fieldErrs == map[] && nonFieldErrs == []
    {
      |fieldErrs| == 0 && |nonFieldErrs| == 0
    }

    function Value(): string
      reads this
    {
      fieldValue
    }

    /** Select the field that later checks apply to. */
    method CheckField(name: string, val: string)
      modifies this
      ensures fieldName == name && Value() == val
      ensures fieldErrs == old(fieldErrs) && nonFieldErrs == old(nonFieldErrs)
      ensures State() == Step(old(State()), Op.CheckField(name, val))
    {
      fieldName := name;
      fieldValue := val;
    }

    /** Record a message for a field unless it already has one. */
    method AddFieldError(field: string, message: string)
      modifies this
      ensures field in fieldErrs
      ensures field in old(fieldErrs) ==> fieldErrs == old(fieldErrs)
      ensures field !in old(fieldErrs) ==> fieldErrs == old(fieldErrs)[field := message]
      ensures fieldName == old(fieldName) && fieldValue == old(fieldValue)
      ensures nonFieldErrs == old(nonFieldErrs)
      ensures State() == Step(old(State()), Op.AddFieldError(field, message))
    {
      if field !in fieldErrs {
        fieldErrs := fieldErrs[field := message];
      }
    }

    /** Append an error that belongs to no field. */
    method AddNonFieldError(message: string)
      modifies this
      ensures nonFieldErrs == old(nonFieldErrs) + [message]
      ensures fieldErrs == old(fieldErrs)
      ensures fieldName == old(fieldName) && fieldValue == old(fieldValue)
      ensures State() == Step(old(State()), Op.AddNonFieldError(message))
    {
      nonFieldErrs := nonFieldErrs + [message];
    }

    /** Record a message for the selected field (`addFieldError`). */
    method RecordFieldError(message: string)
      modifies this
      ensures fieldErrs == AddFirst(old(fieldErrs), fieldName, message)
      ensures fieldName == old(fieldName) && fieldValue == old(fieldValue)
      ensures nonFieldErrs == old(nonFieldErrs)
    {
      AddFieldError(fieldName, message);
    }

    /**
     * Parse the selected value as a decimal `int`; a failure is reported only
     * through an error for the selected field.
     */
    method ToInt(message: string) returns (i: int)
      modifies this
      ensures i == Strconv.AtoiSpec(fieldValue).value
      ensures fieldErrs == if Strconv.AtoiSpec(fieldValue).err.Some?
                           then AddFirst(old(fieldErrs), fieldName, message)
                           else old(fieldErrs)
      ensures fieldName == old(fieldName) && fieldValue == old(fieldValue)
      ensures nonFieldErrs == old(nonFieldErrs)
      ensures State() == Step(old(State()), Op.ToInt(message))
    {
      var err;
      i, err := Strconv.Atoi(fieldValue);
      if err.Some? {
        RecordFieldError(message);
      }
    }

    method NotBlank(message: string)
      modifies this
      ensures fieldErrs == if Strings.TrimSpace(fieldValue) == []
                           then AddFirst(old(fieldErrs), fieldName, message)
                           else old(fieldErrs)
      ensures fieldName == old(fieldName) && fieldValue == old(fieldValue)
      ensures nonFieldErrs == old(nonFieldErrs)
      ensures State() == Step(old(State()), RunCheck(Check.NotBlank, message))
    {
      var val := Strings.TrimSpace(fieldValue);
      if val == "" {
        RecordFieldError(message);
      }
    }

    method LE(message: string, n: int)
      modifies this
      ensures fieldErrs == if |fieldValue| > n
                           then AddFirst(old(fieldErrs), fieldName, message)
                           else old(fieldErrs)
      ensures fieldName == old(fieldName) && fieldValue == old(fieldValue)
      ensures nonFieldErrs == old(nonFieldErrs)
      ensures State() == Step(old(State()), RunCheck(Check.LE(n), message))
    {
      if |fieldValue| > n {
        RecordFieldError(message);
      }
    }

    method In(message: string, permitted: seq<string>)
      modifies this
      ensures fieldErrs == if fieldValue !in permitted
                           then AddFirst(old(fieldErrs), fieldName, message)
                           else old(fieldErrs)
      ensures fieldName == old(fieldName) && fieldValue == old(fieldValue)
      ensures nonFieldErrs == old(nonFieldErrs)
      ensures State() == Step(old(State()), RunCheck(Check.In(permitted), message))
    {
      for i := 0 to |permitted|
        invariant fieldValue !in permitted[..i]
      {
        if fieldValue == permitted[i] {
          return;
        }
      }
      assert permitted[..|permitted|] == permitted;
      RecordFieldError(message);
    }

    method GE(message: string, n: int)
      modifies this
      ensures fieldErrs == if |fieldValue| < n
                           then AddFirst(old(fieldErrs), fieldName, message)
                           else old(fieldErrs)
      ensures fieldName == old(fieldName) && fieldValue == old(fieldValue)
      ensures nonFieldErrs == old(nonFieldErrs)
      ensures State() == Step(old(State()), RunCheck(Check.GE(n), message))
    {
      if |fieldValue| < n {
        RecordFieldError(message);
      }
    }

    method Matches(message: string, rx: string -> bool)
      modifies this
      ensures fieldErrs == if !rx(fieldValue)
                           then AddFirst(old(fieldErrs), fieldName, message)
                           else old(fieldErrs)
      ensures fieldName == old(fieldName) && fieldValue == old(fieldValue)
      ensures nonFieldErrs == old(nonFieldErrs)
      ensures State() == Step(old(State()), RunCheck(Check.Matches(rx), message))
    {
      var ok := rx(fieldValue);
      if !ok {
        RecordFieldError(message);
      }
    }

    method IsEmail(message: string)
      modifies this
      ensures fieldErrs == if !EmailRX(fieldValue)
                           then AddFirst(old(fieldErrs), fieldName, message)
                           else old(fieldErrs)
      ensures fieldName == old(fieldName) && fieldValue == old(fieldValue)
      ensures nonFieldErrs == old(nonFieldErrs)
      ensures State() == Step(old(State()), RunCheck(Check.Matches(EmailRX), message))
    {
      Matches(message, EmailRX);
    }

    method Equal(message: string, val: string)
      modifies this
      ensures fieldErrs == if fieldValue != val
                           then AddFirst(old(fieldErrs), fieldName, message)
                           else old(fieldErrs)
      ensures fieldName == old(fieldName) && fieldValue == old(fieldValue)
      ensures nonFieldErrs == old(nonFieldErrs)
      ensures State() == Step(old(State()), RunCheck(Check.Equal(val), message))
    {
      if fieldValue != val {
        RecordFieldError(message);
      }
    }
  }

  // ---------------------------------------------------------------------
  // Properties of single calls
  // ---------------------------------------------------------------------

  /** First error wins: a recorded message is never replaced, and the field is always present afterwards. */
  lemma AddFirstSticky(errs: map<string, string>, field: string, message: string)
    ensures field in AddFirst(errs, field, message)
    ensures field in errs ==> AddFirst(errs, field, message)[field] == errs[field]
    ensures field !in errs ==> AddFirst(errs, field, message)[field] == message
    ensures forall k :: k != field ==>
              (k in AddFirst(errs, field, message) <==> k in errs) &&
              (k in errs ==> AddFirst(errs, field, message)[k] == errs[k])
  {
  }

  /**
   * A check adds at most one entry, and only under the selected field; it
   * never moves the cursor and never touches the non-field errors.
   */
  lemma CheckTouchesOnlySelectedField(s: ValidatorState, c: Check, message: string)
    ensures var t := Step(s, RunCheck(c, message));
      && t.fieldName == s.fieldName && t.fieldValue == s.fieldValue
      && t.nonFieldErrs == s.nonFieldErrs
      && t.fieldErrs.Keys == s.fieldErrs.Keys + (if Fails(c, s.fieldValue) then {s.fieldName} else {})
      && (forall k :: k in s.fieldErrs ==> t.fieldErrs[k] == s.fieldErrs[k])
  {
  }

  /** `NotBlank` fails exactly when every character of the value is white space (the empty value included). */
  lemma NotBlankFailsIff(value: string)
    ensures Fails(NotBlank, value) <==> Strings.AllSpace(value)
  {
    Strings.TrimSpaceEmptyIff(value);
  }

  /** `In` with no permitted values fails on every value. */
  lemma InEmptyAlwaysFails(value: string)
    ensures Fails(In([]), value)
  {
  }

  /**
   * `ToInt` records an error exactly when the value is not an optionally
   * signed decimal integer within the `int64` range; on success it returns
   * that integer and changes nothing.
   */
  lemma ToIntRecordsIff(s: ValidatorState, message: string)
    ensures var ok := Strconv.IsDecimal(s.fieldValue) && Strconv.InInt64(Strconv.DecimalValue(s.fieldValue));
      && (ok ==> Step(s, ToInt(message)) == s
                 && Strconv.AtoiSpec(s.fieldValue).value == Strconv.DecimalValue(s.fieldValue))
      && (!ok ==> s.fieldName in Step(s, ToInt(message)).fieldErrs && !NoErrors(Step(s, ToInt(message))))
  {
    Strconv.AtoiAccepts(s.fieldValue);
  }

  // ---------------------------------------------------------------------
  // Properties of any sequence of calls
  // ---------------------------------------------------------------------

  /** Once a field has a message, no later call changes or removes it. */
  lemma {:induction false} ReplayKeepsFirstError(s: ValidatorState, ops: seq<Op>, field: string)
    requires field in s.fieldErrs
    ensures field in Replay(s, ops).fieldErrs
    ensures Replay(s, ops).fieldErrs[field] == s.fieldErrs[field]
    decreases |ops|
  {
    if ops != [] {
      ReplayKeepsFirstError(Step(s, ops[0]), ops[1..], field);
    }
  }

  /** Non-field errors are only ever appended: earlier ones stay, in order. */
  lemma {:induction false} ReplayKeepsNonFieldErrs(s: ValidatorState, ops: seq<Op>)
    ensures s.nonFieldErrs <= Replay(s, ops).nonFieldErrs
    decreases |ops|
  {
    if ops != [] {
      ReplayKeepsNonFieldErrs(Step(s, ops[0]), ops[1..]);
    }
  }

  /** A validator that holds an error never becomes valid again. */
  lemma {:induction false} ReplayStaysInvalid(s: ValidatorState, ops: seq<Op>)
    requires !NoErrors(s)
    ensures !NoErrors(Replay(s, ops))
    decreases |ops|
  {
    if ops != [] {
      var t := Step(s, ops[0]);
      assert !NoErrors(t) by {
        if |s.fieldErrs| != 0 {
          var k :| k in s.fieldErrs;
          assert k in t.fieldErrs;
        } else {
          assert |t.nonFieldErrs| >= |s.nonFieldErrs|;
        }
      }
      ReplayStaysInvalid(t, ops[1..]);
    }
  }

  /**
   * Errors are only ever recorded under a field named by `AddFieldError`, or
   * under a field that was selected (initially or by `CheckField`).
   */
  lemma {:induction false} ReplayErrorFields(s: ValidatorState, ops: seq<Op>)
    ensures Replay(s, ops).fieldErrs.Keys <= s.fieldErrs.Keys + ErrorFields(s.fieldName, ops)
    decreases |ops|
  {
    if ops != [] {
      var t := Step(s, ops[0]);
      ReplayErrorFields(t, ops[1..]);
      match ops[0]
      case CheckField(name, _) =>
        assert t.fieldErrs == s.fieldErrs;
      case AddFieldError(field, _) =>
        assert t.fieldErrs.Keys <= s.fieldErrs.Keys + {field};
      case AddNonFieldError(_) =>
        assert t.fieldErrs == s.fieldErrs;
      case RunCheck(_, _) =>
        assert t.fieldErrs.Keys <= s.fieldErrs.Keys + {s.fieldName};
        SelectedFieldCounted(s.fieldName, ops[1..]);
      case ToInt(_) =>
        assert t.fieldErrs.Keys <= s.fieldErrs.Keys + {s.fieldName};
        SelectedFieldCounted(s.fieldName, ops[1..]);
    }
  }

  lemma {:induction false} SelectedFieldCounted(start: string, ops: seq<Op>)
    ensures start in ErrorFields(start, ops)
    decreases |ops|
  {
    if ops != [] {
      match ops[0]
      case CheckField(_, _) =>
      case AddFieldError(_, _) => SelectedFieldCounted(start, ops[1..]);
      case AddNonFieldError(_) => SelectedFieldCounted(start, ops[1..]);
      case RunCheck(_, _) => SelectedFieldCounted(start, ops[1..]);
      case ToInt(_) => SelectedFieldCounted(start, ops[1..]);
    }
  }
}
