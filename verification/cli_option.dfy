/** The `--name value` / `--name=value` parser of a Ballerina program's entry
    function (runtime internal/cli/Option.java). The option's fields form a record
    type; `parseRecord` walks the command line once, filling the record, collecting
    the names it met and passing everything that is not an option through as an
    operand, and then checks that every key already in the record that was not
    given has a union type admitting nil. */
module CliOptions {
  import opened Wrappers
  import opened JavaText

  // ---------------------------------------------------------------------------
  // Types and values.

  /** The Ballerina types a record field can have, as far as the parser tells them apart. */
  datatype FieldType =
    | StringT | IntT | FloatT | DecimalT | ByteT | BooleanT | NilT
    | ArrayT(elem: FieldType)
    | UnionT(members: seq<FieldType>)
    | OtherT(name: string)

  /** The type's text in an "unsupported type" message. */
  function TypeText(t: FieldType): string
    decreases t, 1
  {
    match t
    case StringT => "string"
    case IntT => "int"
    case FloatT => "float"
    case DecimalT => "decimal"
    case ByteT => "byte"
    case BooleanT => "boolean"
    case NilT => "()"
    case ArrayT(e) => TypeText(e) + "[]"
    case UnionT(ms) => MembersText(t, ms)
    case OtherT(n) => n
  }

  function MembersText(u: FieldType, ms: seq<FieldType>): string
    requires forall i | 0 <= i < |ms| :: ms[i] < u
    decreases u, 0, |ms|
  {
    if ms == [] then ""
    else
      assert ms[0] < u;
      if |ms| == 1 then TypeText(ms[0]) else TypeText(ms[0]) + "|" + MembersText(u, ms[1..])
  }

  /** A value stored in the record. Floats and decimals keep their text. */
  datatype CliValue =
    | StrV(s: string)
    | IntV(i: int)
    | FloatV(text: string)
    | DecimalV(text: string)
    | ByteV(b: int)
    | BoolV(flag: bool)
    | ArrV(elemType: FieldType, items: seq<CliValue>)

  /** The errors the parser raises; the last one stands for a Java runtime exception. */
  datatype CliError =
    | UndefinedParameter(name: string)
    | MissingOptionValue(arg: string)
    | MissingRequiredParameter(key: string)
    | UnsupportedType(t: FieldType)
    | InvalidInteger(arg: string)
    | InvalidByte(arg: string)
    | ByteOutOfRange(arg: string)
    | JavaException(kind: string)
  {
    function Message(): string {
      match this
      case UndefinedParameter(n) => "undefined parameter: '" + n + "'"
      case MissingOptionValue(a) => "Missing required parameter for " + a + "'"
      case MissingRequiredParameter(k) => "Missing required parameter: '" + k + "'"
      case UnsupportedType(t) => "unsupported type expected with entry function '" + TypeText(t) + "'"
      case InvalidInteger(a) => "invalid argument '" + a + "', expected integer value"
      case InvalidByte(a) => "invalid argument '" + a + "', expected byte value"
      case ByteOutOfRange(a) => "invalid argument '" + a + "', expected byte value, found int"
      case JavaException(k) => k
    }
  }

  // ---------------------------------------------------------------------------
  // Number parsing (Long.parseLong, Integer.parseInt and the hex rule of getIntegerValue).

  /** `Character.digit` for the ASCII digits and letters. */
  function DigitValue(c: char): (r: Option<nat>)
    ensures r.Some? ==> r.value < 36
  {
    if '0' <= c <= '9' then Some(c as int - '0' as int)
    else if 'A' <= c <= 'Z' then Some(c as int - 'A' as int + 10)
    else if 'a' <= c <= 'z' then Some(c as int - 'a' as int + 10)
    else None
  }

  predicate IsDigitIn(c: char, radix: nat) {
    DigitValue(c).Some? && DigitValue(c).value < radix
  }

  /** The value of a digit string, most significant digit first. */
  function DigitsValue(s: string, radix: nat): nat
    requires forall i | 0 <= i < |s| :: IsDigitIn(s[i], radix)
  {
    if s == [] then 0
    else
      assert IsDigitIn(s[|s| - 1], radix);
      assert forall i | 0 <= i < |s| - 1 :: s[..|s| - 1][i] == s[i];
      var high: nat := DigitsValue(s[..|s| - 1], radix);
      ProductOfNaturals(high, radix);
      high * radix + DigitValue(s[|s| - 1]).value
  }

  lemma ProductOfNaturals(a: nat, b: nat)
    ensures a * b >= 0
  {
  }

  /** `Long.parseLong(s, radix)` (or `Integer.parseInt` with the `int` bounds): an
      optional sign, at least one digit, and a value inside [lo, hi]. */
  function ParseSigned(s: string, radix: nat, lo: int, hi: int): (r: Option<int>)
    ensures r.Some? ==> lo <= r.value <= hi
  {
    if s == [] then None
    else
      var negative := s[0] == '-';
      var digits := if s[0] == '-' || s[0] == '+' then s[1..] else s;
      if digits == [] || !(forall i | 0 <= i < |digits| :: IsDigitIn(digits[i], radix)) then None
      else
        var magnitude: int := DigitsValue(digits, radix);
        var v := if negative then -magnitude else magnitude;
        if lo <= v <= hi then Some(v) else None
  }

  function ParseLong(s: string, radix: nat): Option<int> {
    ParseSigned(s, radix, MinInt64, MaxInt64)
  }

  /** `s.replace("0X", "")`: every non-overlapping "0X", left to right, removed. */
  function RemoveHexPrefixes(s: string): (r: string)
    ensures |r| <= |s|
  {
    if |s| >= 2 && s[0] == '0' && s[1] == 'X' then RemoveHexPrefixes(s[2..])
    else if s == [] then []
    else [s[0]] + RemoveHexPrefixes(s[1..])
  }

  predicate StartsWith(s: string, prefix: string) {
    |prefix| <= |s| && s[..|prefix|] == prefix
  }

  /** getIntegerValue: hexadecimal after a case-insensitive "0x", decimal otherwise. */
  function GetIntegerValue(arg: string): (r: Result<int, CliError>)
    ensures r.Success? ==> MinInt64 <= r.value <= MaxInt64
    ensures r.Failure? ==> r.error == InvalidInteger(arg)
  {
    var upper := ToUpperAscii(arg);
    var parsed := if StartsWith(upper, "0X") then ParseLong(RemoveHexPrefixes(upper), 16) else ParseLong(arg, 10);
    if parsed.Some? then Success(parsed.value) else Failure(InvalidInteger(arg))
  }

  /** getByteValue: a decimal `int` that is also a byte literal, 0 to 255. */
  function GetByteValue(arg: string): (r: Result<int, CliError>)
    ensures r.Success? ==> 0 <= r.value <= 255
    ensures r.Failure? ==> r.error == InvalidByte(arg) || r.error == ByteOutOfRange(arg)
    ensures r.Failure? && ParseSigned(arg, 10, MinInt32, MaxInt32).Some? ==> r.error == ByteOutOfRange(arg)
  {
    var parsed := ParseSigned(arg, 10, MinInt32, MaxInt32);
    if parsed.None? then Failure(InvalidByte(arg))
    else if !(0 <= parsed.value <= 255) then Failure(ByteOutOfRange(arg))
    else Success(parsed.value)
  }

  /** getBValue: the text converted by the field's type; booleans and every other
      type not listed fall to the "unsupported type" error. */
  function GetBValue(t: FieldType, value: string): (r: Result<CliValue, CliError>)
    ensures r.Success? ==> t in {StringT, IntT, FloatT, DecimalT, ByteT}
    ensures !(t in {StringT, IntT, FloatT, DecimalT, ByteT}) ==> r == Failure(UnsupportedType(t))
    ensures t == StringT ==> r == Success(StrV(value))
  {
    match t
    case StringT => Success(StrV(value))
    case IntT => (var i := GetIntegerValue(value); if i.Success? then Success(IntV(i.value)) else Failure(i.error))
    case FloatT => Success(FloatV(value))
    case DecimalT => Success(DecimalV(value))
    case ByteT => (var b := GetByteValue(value); if b.Success? then Success(ByteV(b.value)) else Failure(b.error))
    case _ => Failure(UnsupportedType(t))
  }

  /** The digits of a decimal string read back give the number. */
  lemma {:induction false} NatStringValue(n: nat)
    ensures forall i | 0 <= i < |NatString(n)| :: IsDigitIn(NatString(n)[i], 10)
    ensures DigitsValue(NatString(n), 10) == n
    decreases n
  {
    if n >= 10 {
      NatStringValue(n / 10);
      var s := NatString(n);
      assert s[..|s| - 1] == NatString(n / 10);
    }
  }

  /** Every number inside the bounds, written in decimal, parses back to itself. */
  lemma {:induction false} ParseDecimalRoundTrip(n: int, lo: int, hi: int)
    requires lo <= n <= hi
    ensures ParseSigned(DecimalString(n), 10, lo, hi) == Some(n)
  {
    if n < 0 {
      NatStringValue(-n);
      ParseNegativeDigits(NatString(-n), lo, hi);
      assert DecimalString(n) == "-" + NatString(-n);
    } else {
      NatStringValue(n);
      ParseUnsignedDigits(NatString(n), 10, lo, hi);
    }
  }

  /** Digits with no sign in front parse to their value, when it is within the bounds. */
  lemma {:induction false} ParseUnsignedDigits(d: string, radix: nat, lo: int, hi: int)
    requires d != [] && d[0] != '-' && d[0] != '+'
    requires forall i | 0 <= i < |d| :: IsDigitIn(d[i], radix)
    requires lo <= DigitsValue(d, radix) <= hi
    ensures ParseSigned(d, radix, lo, hi) == Some(DigitsValue(d, radix))
  {
  }

  /** A minus sign and digits parse to the negated value, when it is within the bounds. */
  lemma {:induction false} ParseNegativeDigits(d: string, lo: int, hi: int)
    requires d != []
    requires forall i | 0 <= i < |d| :: IsDigitIn(d[i], 10)
    requires lo <= -(DigitsValue(d, 10) as int) <= hi
    ensures ParseSigned("-" + d, 10, lo, hi) == Some(-(DigitsValue(d, 10) as int))
  {
    assert ("-" + d)[1..] == d;
  }

  lemma {:induction false} ParseLongDecimalRoundTrip(n: int)
    requires MinInt64 <= n <= MaxInt64
    ensures ParseLong(DecimalString(n), 10) == Some(n)
  {
    ParseDecimalRoundTrip(n, MinInt64, MaxInt64);
  }

  /** getByteValue on an `int` written in decimal: the number itself when it is a
      byte, the "found int" error otherwise. */
  lemma {:induction false} GetByteValueDecimal(n: int)
    requires MinInt32 <= n <= MaxInt32
    ensures GetByteValue(DecimalString(n)) ==
      if 0 <= n <= 255 then Success(n) else Failure(ByteOutOfRange(DecimalString(n)))
  {
    ParseDecimalRoundTrip(n, MinInt32, MaxInt32);
  }

  /** Decimal integers are read as themselves by getIntegerValue. */
  lemma {:induction false} GetIntegerValueDecimal(n: int)
    requires MinInt64 <= n <= MaxInt64
    ensures GetIntegerValue(DecimalString(n)) == Success(n)
  {
    ParseLongDecimalRoundTrip(n);
    DecimalStringNotHex(n);
  }

  /** A number written in decimal never starts with "0X", in either case: its second
      character, when it has one, is a digit. */
  lemma {:induction false} DecimalStringNotHex(n: int)
    ensures !StartsWith(ToUpperAscii(DecimalString(n)), "0X")
  {
    var s := DecimalString(n);
    if |s| >= 2 {
      if n < 0 {
        assert s[1..] == NatString(-n);
      }
      assert '0' <= s[1] <= '9';
      assert ToUpperAscii(s)[1] == s[1];
    }
  }

  /** Upper-case hexadecimal digits, most significant first. */
  function HexString(n: nat): (r: string)
    ensures |r| >= 1
    ensures forall i | 0 <= i < |r| :: ('0' <= r[i] <= '9' || 'A' <= r[i] <= 'F')
    decreases n
  {
    var d := n % 16;
    var c := if d < 10 then ('0' as int + d) as char else ('A' as int + d - 10) as char;
    if n < 16 then [c] else HexString(n / 16) + [c]
  }

  lemma {:induction false} HexStringValue(n: nat)
    ensures forall i | 0 <= i < |HexString(n)| :: IsDigitIn(HexString(n)[i], 16)
    ensures DigitsValue(HexString(n), 16) == n
    decreases n
  {
    if n >= 16 {
      HexStringValue(n / 16);
      var s := HexString(n);
      assert s[..|s| - 1] == HexString(n / 16);
    }
  }

  /** Removing "0X" leaves a string with no 'X' untouched. */
  lemma {:induction false} RemoveHexPrefixesNoX(s: string)
    requires forall i | 0 <= i < |s| :: s[i] != 'X'
    ensures RemoveHexPrefixes(s) == s
  {
    if s != [] {
      RemoveHexPrefixesNoX(s[1..]);
    }
  }

  /** "0x" followed by upper-case hex digits is read as that hexadecimal number. */
  lemma {:induction false} GetIntegerValueHex(n: nat)
    requires n <= MaxInt64
    ensures GetIntegerValue("0x" + HexString(n)) == Success(n)
  {
    var h := HexString(n);
    UpperHexArgument(h);
    RemoveHexPrefixesNoX(h);
    HexStringValue(n);
    ParseUnsignedDigits(h, 16, MinInt64, MaxInt64);
  }

  /** Upper-casing "0x" and upper-case hex digits only turns the 'x' into 'X'. */
  lemma {:induction false} UpperHexArgument(h: string)
    requires forall i | 0 <= i < |h| :: ('0' <= h[i] <= '9' || 'A' <= h[i] <= 'F')
    ensures ToUpperAscii("0x" + h) == "0X" + h
    ensures StartsWith("0X" + h, "0X")
  {
    var arg := "0x" + h;
    var upper := ToUpperAscii(arg);
    forall i | 0 <= i < |upper|
      ensures upper[i] == ("0X" + h)[i]
    {
      if i >= 2 {
        assert arg[i] == h[i - 2];
      }
    }
    assert ("0X" + h)[..2] == "0X";
  }

  // ---------------------------------------------------------------------------
  // Argument text.

  /** `CliUtil.isOption`: an argument that starts with "--". */
  predicate IsOption(arg: string) {
    StartsWith(arg, "--")
  }

  /** The position of the first '='. */
  function IndexOfEquals(s: string): (r: Option<nat>)
    ensures r.Some? ==> r.value < |s| && s[r.value] == '=' && forall k | 0 <= k < r.value :: s[k] != '='
    ensures r.None? ==> forall k | 0 <= k < |s| :: s[k] != '='
  {
    if s == [] then None
    else if s[0] == '=' then Some(0)
    else
      var rest := IndexOfEquals(s[1..]);
      if rest.Some? then Some(rest.value + 1) else None
  }

  /** isNamedArg: the argument contains '='. */
  predicate IsNamedArg(arg: string) {
    IndexOfEquals(arg).Some?
  }

  /** getNamedOptionName: the part before the first '=', without its leading two
      characters, trimmed. */
  function GetNamedOptionName(arg: string): string
    requires IsOption(arg)
  {
    var before := if IsNamedArg(arg) then arg[..IndexOfEquals(arg).value] else arg;
    if |before| < 2 then [] else Trim(before[2..])
  }

  /** getValueString: everything after the first '=' (the split keeps at most two parts). */
  function GetValueString(arg: string): string
    requires IsNamedArg(arg)
  {
    arg[IndexOfEquals(arg).value + 1..]
  }

  /** `--name=value` splits at its first '=' only: the value keeps any further '='. */
  lemma {:induction false} NamedArgSplit(name: string, value: string)
    requires forall k | 0 <= k < |name| :: name[k] != '='
    ensures var arg := "--" + name + "=" + value;
      IsOption(arg) && IsNamedArg(arg) && GetNamedOptionName(arg) == Trim(name) && GetValueString(arg) == value
  {
    var arg := "--" + name + "=" + value;
    var i := |name| + 2;
    assert arg[i] == '=';
    assert forall k | 0 <= k < i :: arg[k] != '=' by {
      forall k | 0 <= k < i
        ensures arg[k] != '='
      {
        if k >= 2 {
          assert arg[k] == name[k - 2];
        }
      }
    }
    IndexOfEqualsFirst(arg, i);
    assert arg[..i][2..] == name;
    assert arg[i + 1..] == value;
    assert arg[..2] == "--";
  }

  lemma {:induction false} IndexOfEqualsFirst(s: string, i: nat)
    requires i < |s| && s[i] == '=' && forall k | 0 <= k < i :: s[k] != '='
    ensures IndexOfEquals(s) == Some(i)
  {
    if i > 0 {
      IndexOfEqualsFirst(s[1..], i - 1);
    }
  }

  // ---------------------------------------------------------------------------
  // The parser's state and one step of it, as functions.

  /** The record (with its keys in insertion order), the parameter names met, and
      the operands collected so far. */
  datatype ParseState = ParseState(
    record: map<string, CliValue>, keys: seq<string>, found: set<string>, operands: seq<string>)

  /** `record.put`: a new key goes to the end of the key order, an old key keeps its place. */
  function PutValue(st: ParseState, k: string, v: CliValue): (r: ParseState)
    ensures r.record == st.record[k := v] && r.found == st.found && r.operands == st.operands
  {
    st.(record := st.record[k := v], keys := if k in st.record then st.keys else st.keys + [k])
  }

  /** getBArray: the field's array, created empty and put in the record when absent;
      a stored value that is not an array fails the cast. */
  function EnsureArray(st: ParseState, k: string, t: FieldType): (r: Result<ParseState, CliError>)
    requires t.ArrayT?
    ensures r.Success? ==> k in r.value.record && r.value.record[k].ArrV?
    ensures r.Success? && k !in st.record ==> r.value.record[k] == ArrV(t.elem, [])
    ensures r.Success? && k in st.record ==> r.value == st
    ensures r.Failure? <==> k in st.record && !st.record[k].ArrV?
  {
    if k !in st.record then Success(PutValue(st, k, ArrV(t.elem, [])))
    else if st.record[k].ArrV? then Success(st)
    else Failure(JavaException("ClassCastException"))
  }

  /** `bArray.append(v)` on the array stored under `k`. */
  function Append(st: ParseState, k: string, v: CliValue): (r: ParseState)
    requires k in st.record && st.record[k].ArrV?
    ensures k in r.record && r.record[k].ArrV?
    ensures r.record[k].items == st.record[k].items + [v] && r.record[k].elemType == st.record[k].elemType
    ensures forall j | j in st.record && j != k :: j in r.record && r.record[j] == st.record[j]
    ensures r.keys == st.keys && r.found == st.found && r.operands == st.operands
  {
    PutValue(st, k, st.record[k].(items := st.record[k].items + [v]))
  }

  /** A record whose keys are listed once each in insertion order, are fields of the
      record type, and hold arrays wherever the field is an array. */
  ghost predicate WellFormed(rt: map<string, FieldType>, st: ParseState) {
    && (forall i, j | 0 <= i < j < |st.keys| :: st.keys[i] != st.keys[j])
    && (forall k :: k in st.record <==> k in st.keys)
    && st.record.Keys <= rt.Keys
    && st.found <= rt.Keys
    && (forall k | k in st.record && rt[k].ArrayT? :: st.record[k].ArrV?)
  }

  /** handleBoolean: a boolean field is set to true and a boolean array gets true
      appended (both handled); any other array is created but not handled. */
  function HandleBooleanSpec(rt: map<string, FieldType>, st: ParseState, name: string)
    : Result<(bool, ParseState), CliError>
  {
    if name !in rt then Failure(JavaException("NullPointerException"))
    else if rt[name] == BooleanT then Success((true, PutValue(st, name, BoolV(true))))
    else if rt[name].ArrayT? then
      var a := EnsureArray(st, name, rt[name]);
      if a.Failure? then Failure(a.error)
      else if a.value.record[name].elemType == BooleanT then Success((true, Append(a.value, name, BoolV(true))))
      else Success((false, a.value))
    else Success((false, st))
  }

  /** The value text converted by the field's type and stored: appended (with the
      element type of the stored array) for an array field, put otherwise. */
  function StoreValue(rt: map<string, FieldType>, st: ParseState, name: string, text: string)
    : Result<ParseState, CliError>
  {
    if name !in rt then Failure(JavaException("NullPointerException"))
    else if rt[name].ArrayT? then
      var a := EnsureArray(st, name, rt[name]);
      if a.Failure? then Failure(a.error)
      else
        var v := GetBValue(a.value.record[name].elemType, text);
        if v.Failure? then Failure(v.error) else Success(Append(a.value, name, v.value))
    else
      var v := GetBValue(rt[name], text);
      if v.Failure? then Failure(v.error) else Success(PutValue(st, name, v.value))
  }

  /** One pass of parseRecord's loop at `index`: the index to continue from and the new state. */
  function Step(rt: map<string, FieldType>, args: seq<string>, index: nat, st: ParseState)
    : (r: Result<(nat, ParseState), CliError>)
    requires index < |args|
    ensures r.Success? ==> r.value.0 > index
  {
    var arg := args[index];
    var next := index + 1;
    if IsOption(arg) then
      if |arg| == 2 then Success((|args|, st.(operands := st.operands + args[next..])))
      else
        var name := GetNamedOptionName(arg);
        if !(name in st.record || name in rt) then Failure(UndefinedParameter(name))
        else
          var st1 := st.(found := st.found + {name});
          if IsNamedArg(arg) then
            var stored := StoreValue(rt, st1, name, GetValueString(arg));
            if stored.Failure? then Failure(stored.error) else Success((next, stored.value))
          else
            var handled := HandleBooleanSpec(rt, st1, name);
            if handled.Failure? then Failure(handled.error)
            else if handled.value.0 then Success((next, handled.value.1))
            else if next < |args| then
              if IsOption(args[next]) then Failure(MissingOptionValue(arg))
              else
                var stored := StoreValue(rt, handled.value.1, name, args[next]);
                if stored.Failure? then Failure(stored.error) else Success((next + 1, stored.value))
            else Success((next, handled.value.1.(operands := handled.value.1.operands + [arg])))
    else if StartsWith(arg, "-") then
      if |arg| > 1 && arg[1] == 'C' then Success((if IsNamedArg(arg) then next else next + 1, st))
      else Failure(UndefinedParameter(arg))
    else Success((next, st.(operands := st.operands + [arg])))
  }

  /** parseRecord's loop from `index` on. */
  function ParseFrom(rt: map<string, FieldType>, args: seq<string>, index: nat, st: ParseState)
    : Result<ParseState, CliError>
    decreases |args| - index
  {
    if index >= |args| then Success(st)
    else
      var step := Step(rt, args, index, st);
      if step.Failure? then Failure(step.error) else ParseFrom(rt, args, step.value.0, step.value.1)
  }

  /** A field that may be left out: a union type with nil among its members. */
  predicate Optional(t: FieldType) {
    t.UnionT? && NilT in t.members
  }

  /** validateRecord: the first record key, in insertion order, that was not given
      and whose type does not admit nil. */
  function FirstMissing(rt: map<string, FieldType>, keys: seq<string>, found: set<string>): (r: Option<string>)
    ensures r.Some? ==> r.value in keys && r.value !in found && !(r.value in rt && Optional(rt[r.value]))
    ensures r.None? ==> forall k | k in keys && k !in found :: k in rt && Optional(rt[k])
  {
    if keys == [] then None
    else if keys[0] !in found && !(keys[0] in rt && Optional(rt[keys[0]])) then Some(keys[0])
    else FirstMissing(rt, keys[1..], found)
  }

  /** The error validateRecord raises for the first missing key: a key that is not
      a field of the record type fails the field lookup. */
  function MissingError(rt: map<string, FieldType>, key: string): CliError {
    if key in rt then MissingRequiredParameter(key) else JavaException("NullPointerException")
  }

  /** The whole of parseRecord: the loop, then validateRecord. */
  function ParseRecordSpec(rt: map<string, FieldType>, args: seq<string>, st: ParseState)
    : Result<ParseState, CliError>
  {
    var parsed := ParseFrom(rt, args, 0, st);
    if parsed.Failure? then parsed
    else
      var missing := FirstMissing(rt, parsed.value.keys, parsed.value.found);
      if missing.Some? then Failure(MissingError(rt, missing.value)) else parsed
  }

  // ---------------------------------------------------------------------------
  // Properties of the parser.

  lemma PutValueWellFormed(rt: map<string, FieldType>, st: ParseState, k: string, v: CliValue)
    requires WellFormed(rt, st) && k in rt && (rt[k].ArrayT? ==> v.ArrV?)
    ensures WellFormed(rt, PutValue(st, k, v))
  {
    var r := PutValue(st, k, v);
    if k !in st.record {
      forall i, j | 0 <= i < j < |r.keys|
        ensures r.keys[i] != r.keys[j]
      {
        if j == |st.keys| {
          assert r.keys[i] == st.keys[i];
        }
      }
    }
  }

  /** One step keeps the record well-formed, and never meets a Java runtime exception. */
  lemma {:induction false} StepWellFormed(rt: map<string, FieldType>, args: seq<string>, index: nat, st: ParseState)
    requires index < |args| && WellFormed(rt, st)
    ensures Step(rt, args, index, st).Success? ==> WellFormed(rt, Step(rt, args, index, st).value.1)
    ensures Step(rt, args, index, st).Failure? ==> !Step(rt, args, index, st).error.JavaException?
  {
    var arg := args[index];
    if IsOption(arg) && |arg| != 2 {
      var name := GetNamedOptionName(arg);
      if name in st.record || name in rt {
        var st1 := st.(found := st.found + {name});
        assert WellFormed(rt, st1);
        if IsNamedArg(arg) {
          StoreValueWellFormed(rt, st1, name, GetValueString(arg));
        } else {
          HandleBooleanWellFormed(rt, st1, name);
          var handled := HandleBooleanSpec(rt, st1, name);
          if handled.Success? && !handled.value.0 && index + 1 < |args| {
            StoreValueWellFormed(rt, handled.value.1, name, args[index + 1]);
          }
        }
      }
    }
  }

  lemma {:induction false} EnsureArrayWellFormed(rt: map<string, FieldType>, st: ParseState, k: string)
    requires WellFormed(rt, st) && k in rt && rt[k].ArrayT?
    ensures EnsureArray(st, k, rt[k]).Success?
    ensures WellFormed(rt, EnsureArray(st, k, rt[k]).value)
  {
    if k !in st.record {
      PutValueWellFormed(rt, st, k, ArrV(rt[k].elem, []));
    }
  }

  lemma {:induction false} HandleBooleanWellFormed(rt: map<string, FieldType>, st: ParseState, name: string)
    requires WellFormed(rt, st) && name in rt
    ensures HandleBooleanSpec(rt, st, name).Success?
    ensures WellFormed(rt, HandleBooleanSpec(rt, st, name).value.1)
  {
    if rt[name] == BooleanT {
      PutValueWellFormed(rt, st, name, BoolV(true));
    } else if rt[name].ArrayT? {
      EnsureArrayWellFormed(rt, st, name);
      var a := EnsureArray(st, name, rt[name]).value;
      PutValueWellFormed(rt, a, name, a.record[name].(items := a.record[name].items + [BoolV(true)]));
    }
  }

  lemma {:induction false} StoreValueWellFormed(rt: map<string, FieldType>, st: ParseState, name: string, text: string)
    requires WellFormed(rt, st) && name in rt
    ensures StoreValue(rt, st, name, text).Success? ==> WellFormed(rt, StoreValue(rt, st, name, text).value)
    ensures StoreValue(rt, st, name, text).Failure? ==> !StoreValue(rt, st, name, text).error.JavaException?
  {
    if rt[name].ArrayT? {
      EnsureArrayWellFormed(rt, st, name);
      var a := EnsureArray(st, name, rt[name]).value;
      var v := GetBValue(a.record[name].elemType, text);
      if v.Success? {
        PutValueWellFormed(rt, a, name, a.record[name].(items := a.record[name].items + [v.value]));
      }
    } else {
      var v := GetBValue(rt[name], text);
      if v.Success? {
        PutValueWellFormed(rt, st, name, v.value);
      }
    }
  }

  /** The whole loop keeps the record well-formed and raises no Java runtime exception. */
  lemma {:induction false} ParseFromWellFormed(rt: map<string, FieldType>, args: seq<string>, index: nat, st: ParseState)
    requires WellFormed(rt, st)
    ensures ParseFrom(rt, args, index, st).Success? ==> WellFormed(rt, ParseFrom(rt, args, index, st).value)
    ensures ParseFrom(rt, args, index, st).Failure? ==> !ParseFrom(rt, args, index, st).error.JavaException?
    decreases |args| - index
  {
    if index < |args| {
      StepWellFormed(rt, args, index, st);
      var step := Step(rt, args, index, st);
      if step.Success? {
        ParseFromWellFormed(rt, args, step.value.0, step.value.1);
      }
    }
  }

  /** parseRecord on a well-formed record fails only with the parser's own errors,
      and on success every record key that was not given has a nil-admitting union
      type. */
  lemma {:induction false} ParseRecordErrors(rt: map<string, FieldType>, args: seq<string>, st: ParseState)
    requires WellFormed(rt, st)
    ensures ParseRecordSpec(rt, args, st).Failure? ==> !ParseRecordSpec(rt, args, st).error.JavaException?
    ensures ParseRecordSpec(rt, args, st).Success? ==>
      WellFormed(rt, ParseRecordSpec(rt, args, st).value)
      && forall k | k in ParseRecordSpec(rt, args, st).value.record && k !in ParseRecordSpec(rt, args, st).value.found ::
           Optional(rt[k])
  {
    ParseFromWellFormed(rt, args, 0, st);
  }

  /** A command line without any argument starting with '-' is all operands, in order,
      and leaves the record untouched. */
  lemma {:induction false} PlainArgsAreOperands(rt: map<string, FieldType>, args: seq<string>, index: nat, st: ParseState)
    requires index <= |args|
    requires forall i | index <= i < |args| :: !StartsWith(args[i], "-")
    ensures ParseFrom(rt, args, index, st) == Success(st.(operands := st.operands + args[index..]))
    decreases |args| - index
  {
    if index < |args| {
      assert !IsOption(args[index]) by {
        assert !StartsWith(args[index], "-");
      }
      var st1 := st.(operands := st.operands + [args[index]]);
      PlainArgsAreOperands(rt, args, index + 1, st1);
      assert st.operands + args[index..] == st1.operands + args[index + 1..];
    } else {
      assert st.operands + args[index..] == st.operands;
    }
  }

  /** A lone "--" ends option parsing: every later argument is an operand, even one
      that looks like an option. */
  lemma {:induction false} DoubleDashEndsOptions(rt: map<string, FieldType>, args: seq<string>, index: nat, st: ParseState)
    requires index < |args| && args[index] == "--"
    ensures ParseFrom(rt, args, index, st) == Success(st.(operands := st.operands + args[index + 1..]))
  {
    assert IsOption(args[index]);
  }

  /** `--flag` on a boolean field sets it to true without consuming the next argument. */
  lemma {:induction false} BooleanFlag(rt: map<string, FieldType>, args: seq<string>, index: nat, st: ParseState, name: string)
    requires index < |args| && args[index] == "--" + name
    requires name in rt && rt[name] == BooleanT
    requires name != [] && (forall k | 0 <= k < |name| :: name[k] != '=') && Trim(name) == name
    ensures Step(rt, args, index, st)
      == Success((index + 1, PutValue(st.(found := st.found + {name}), name, BoolV(true))))
  {
    NoEqualsName(name);
    var st1 := st.(found := st.found + {name});
    assert HandleBooleanSpec(rt, st1, name) == Success((true, PutValue(st1, name, BoolV(true))));
  }

  /** The name of an option without '=' is its text after "--", trimmed. */
  lemma {:induction false} NoEqualsName(name: string)
    requires forall k | 0 <= k < |name| :: name[k] != '='
    ensures IsOption("--" + name) && !IsNamedArg("--" + name)
    ensures GetNamedOptionName("--" + name) == Trim(name)
  {
    var arg := "--" + name;
    assert arg[..2] == "--";
    assert forall k | 0 <= k < |arg| :: arg[k] != '=' by {
      forall k | 0 <= k < |arg|
        ensures arg[k] != '='
      {
        if k >= 2 {
          assert arg[k] == name[k - 2];
        }
      }
    }
    assert arg[2..] == name;
  }

  /** `--name=value` on a string field stores the whole text after the first '='. */
  lemma {:induction false} NamedStringOption(rt: map<string, FieldType>, args: seq<string>, index: nat, st: ParseState,
                                             name: string, value: string)
    requires index < |args| && args[index] == "--" + name + "=" + value
    requires name in rt && rt[name] == StringT
    requires name != [] && (forall k | 0 <= k < |name| :: name[k] != '=') && Trim(name) == name
    ensures Step(rt, args, index, st)
      == Success((index + 1, PutValue(st.(found := st.found + {name}), name, StrV(value))))
  {
    NamedArgSplit(name, value);
    var st1 := st.(found := st.found + {name});
    assert StoreValue(rt, st1, name, value) == Success(PutValue(st1, name, StrV(value)));
  }

  /** An option without '=' on a non-boolean field that is the last argument takes no
      value: it is passed through as an operand. */
  lemma {:induction false} TrailingOptionIsOperand(
    rt: map<string, FieldType>, args: seq<string>, index: nat, st: ParseState, name: string)
    requires index + 1 == |args| && args[index] == "--" + name
    requires name in rt && !(rt[name] == BooleanT || rt[name].ArrayT?)
    requires name != [] && (forall k | 0 <= k < |name| :: name[k] != '=') && Trim(name) == name
    ensures Step(rt, args, index, st)
      == Success((|args|, st.(found := st.found + {name}, operands := st.operands + ["--" + name])))
  {
    NoEqualsName(name);
    var st1 := st.(found := st.found + {name});
    assert HandleBooleanSpec(rt, st1, name) == Success((false, st1));
  }

  /** `--name value` on a string field takes the next argument as its value, when that
      argument is not itself an option; both arguments are consumed. */
  lemma {:induction false} OptionTakesNextArgument(
    rt: map<string, FieldType>, args: seq<string>, index: nat, st: ParseState, name: string)
    requires index + 1 < |args| && args[index] == "--" + name && !IsOption(args[index + 1])
    requires name in rt && rt[name] == StringT
    requires name != [] && (forall k | 0 <= k < |name| :: name[k] != '=') && Trim(name) == name
    ensures Step(rt, args, index, st)
      == Success((index + 2, PutValue(st.(found := st.found + {name}), name, StrV(args[index + 1]))))
  {
    NoEqualsName(name);
    var st1 := st.(found := st.found + {name});
    assert HandleBooleanSpec(rt, st1, name) == Success((false, st1));
    assert StoreValue(rt, st1, name, args[index + 1]) == Success(PutValue(st1, name, StrV(args[index + 1])));
  }

  /** An option that needs a value but is followed by another option fails with the
      missing-value error naming the option; this holds for a plain field and for a
      new array whose elements are not booleans. */
  lemma {:induction false} OptionBeforeOptionFails(
    rt: map<string, FieldType>, args: seq<string>, index: nat, st: ParseState, name: string)
    requires index + 1 < |args| && args[index] == "--" + name && IsOption(args[index + 1])
    requires name in rt && rt[name] != BooleanT
    requires rt[name].ArrayT? ==> rt[name].elem != BooleanT && name !in st.record
    requires name != [] && (forall k | 0 <= k < |name| :: name[k] != '=') && Trim(name) == name
    ensures Step(rt, args, index, st) == Failure(MissingOptionValue("--" + name))
  {
    NoEqualsName(name);
    var st1 := st.(found := st.found + {name});
    var handled := HandleBooleanSpec(rt, st1, name);
    assert handled.Success? && !handled.value.0;
  }

  /** An option whose name is neither a field nor already in the record fails with
      the undefined-parameter error naming it. */
  lemma {:induction false} UnknownOptionFails(
    rt: map<string, FieldType>, args: seq<string>, index: nat, st: ParseState, name: string)
    requires index < |args| && args[index] == "--" + name
    requires name !in rt && name !in st.record
    requires name != [] && (forall k | 0 <= k < |name| :: name[k] != '=') && Trim(name) == name
    ensures Step(rt, args, index, st) == Failure(UndefinedParameter(name))
  {
    NoEqualsName(name);
  }

  /** A "-C…" argument is a runtime configuration option, which the parser skips
      without recording anything: with a '=' it is skipped alone, without one
      together with the argument after it. */
  lemma {:induction false} ConfigArgSkipped(rt: map<string, FieldType>, args: seq<string>, index: nat, st: ParseState)
    requires index < |args| && |args[index]| >= 2 && args[index][0] == '-' && args[index][1] == 'C'
    ensures Step(rt, args, index, st).Success?
    ensures Step(rt, args, index, st).value.1 == st
    ensures Step(rt, args, index, st).value.0
      == if exists k | 0 <= k < |args[index]| :: args[index][k] == '=' then index + 1 else index + 2
  {
    var arg := args[index];
    assert !IsOption(arg) by {
      assert arg[..2][1] == 'C';
    }
    assert StartsWith(arg, "-") by {
      assert arg[..1] == "-";
    }
  }

  /** Any other argument starting with a single '-' fails with the undefined-parameter
      error naming the whole argument. */
  lemma {:induction false} SingleDashFails(rt: map<string, FieldType>, args: seq<string>, index: nat, st: ParseState)
    requires index < |args| && |args[index]| >= 1 && args[index][0] == '-'
    requires |args[index]| == 1 || (args[index][1] != '-' && args[index][1] != 'C')
    ensures Step(rt, args, index, st) == Failure(UndefinedParameter(args[index]))
  {
    var arg := args[index];
    assert !IsOption(arg) by {
      if |arg| >= 2 {
        assert arg[..2][1] != '-';
      }
    }
    assert StartsWith(arg, "-") by {
      assert arg[..1] == "-";
    }
  }

  /** The items of the array stored under `name`, none when it is not stored yet. */
  function StoredItems(st: ParseState, name: string): seq<CliValue> {
    if name in st.record && st.record[name].ArrV? then st.record[name].items else []
  }

  /** The state after an array option with value `v`: the name is found and `v` is
      appended to the field's array, created empty with element type `elem` when
      absent; no other field changes. */
  function ArrayOptionState(st: ParseState, name: string, elem: FieldType, v: CliValue): (r: ParseState)
    requires name in st.record ==> st.record[name].ArrV? && st.record[name].elemType == elem
    ensures name in r.record && r.record[name] == ArrV(elem, StoredItems(st, name) + [v])
    ensures forall j | j in st.record && j != name :: j in r.record && r.record[j] == st.record[j]
    ensures r.found == st.found + {name} && r.operands == st.operands
  {
    var st1 := st.(found := st.found + {name});
    var a := if name in st1.record then st1 else PutValue(st1, name, ArrV(elem, []));
    Append(a, name, v)
  }

  /** `--name value` on an array field appends the converted value to the field's
      array and consumes both arguments. */
  lemma {:induction false} ArrayOptionAppends(
    rt: map<string, FieldType>, args: seq<string>, index: nat, st: ParseState, name: string, elem: FieldType)
    requires index + 1 < |args| && args[index] == "--" + name && !IsOption(args[index + 1])
    requires name in rt && rt[name] == ArrayT(elem) && elem != BooleanT
    requires GetBValue(elem, args[index + 1]).Success?
    requires name in st.record ==> st.record[name].ArrV? && st.record[name].elemType == elem
    requires name != [] && (forall k | 0 <= k < |name| :: name[k] != '=') && Trim(name) == name
    ensures Step(rt, args, index, st)
      == Success((index + 2, ArrayOptionState(st, name, elem, GetBValue(elem, args[index + 1]).value)))
  {
    NoEqualsName(name);
    var st1 := st.(found := st.found + {name});
    var a := EnsureArray(st1, name, rt[name]);
    assert a.Success? && a.value.record[name] == ArrV(elem, StoredItems(st, name));
    assert HandleBooleanSpec(rt, st1, name) == Success((false, a.value));
    var v := GetBValue(elem, args[index + 1]).value;
    assert StoreValue(rt, a.value, name, args[index + 1]) == Success(Append(a.value, name, v));
  }

  /** `--name` on an array of booleans appends true and consumes only the option
      itself; no other field changes. */
  lemma {:induction false} BooleanArrayAppendsTrue(
    rt: map<string, FieldType>, args: seq<string>, index: nat, st: ParseState, name: string)
    requires index < |args| && args[index] == "--" + name
    requires name in rt && rt[name] == ArrayT(BooleanT)
    requires name in st.record ==> st.record[name].ArrV? && st.record[name].elemType == BooleanT
    requires name != [] && (forall k | 0 <= k < |name| :: name[k] != '=') && Trim(name) == name
    ensures var r := Step(rt, args, index, st);
      && r.Success? && r.value.0 == index + 1
      && name in r.value.1.record
      && r.value.1.record[name] == ArrV(BooleanT, StoredItems(st, name) + [BoolV(true)])
      && (forall j | j in st.record && j != name :: j in r.value.1.record && r.value.1.record[j] == st.record[j])
      && r.value.1.found == st.found + {name} && r.value.1.operands == st.operands
  {
    NoEqualsName(name);
    var st1 := st.(found := st.found + {name});
    var a := EnsureArray(st1, name, rt[name]);
    assert a.Success? && a.value.record[name] == ArrV(BooleanT, StoredItems(st, name));
    assert HandleBooleanSpec(rt, st1, name) == Success((true, Append(a.value, name, BoolV(true))));
  }

  /** The loop continues from where a successful step leaves it. */
  lemma {:induction false} ParseFromAfterStep(
    rt: map<string, FieldType>, args: seq<string>, index: nat, st: ParseState, next: nat, st1: ParseState)
    requires index < |args| && Step(rt, args, index, st) == Success((next, st1))
    ensures ParseFrom(rt, args, index, st) == ParseFrom(rt, args, next, st1)
  {
  }

  /** A repeated array option accumulates its values in command-line order:
      `--name a --name b` (the last four arguments) on a new array field stores
      the values of a and b, in that order. */
  lemma {:induction false} RepeatedArrayOptionAccumulates(
    rt: map<string, FieldType>, args: seq<string>, i: nat, st: ParseState, name: string, elem: FieldType)
    requires |args| == i + 4 && args[i] == "--" + name && args[i + 2] == "--" + name
    requires !IsOption(args[i + 1]) && !IsOption(args[i + 3])
    requires name in rt && rt[name] == ArrayT(elem) && elem != BooleanT && name !in st.record
    requires GetBValue(elem, args[i + 1]).Success? && GetBValue(elem, args[i + 3]).Success?
    requires name != [] && (forall k | 0 <= k < |name| :: name[k] != '=') && Trim(name) == name
    ensures var r := ParseFrom(rt, args, i, st);
      && r.Success? && name in r.value.record
      && r.value.record[name] == ArrV(elem, [GetBValue(elem, args[i + 1]).value, GetBValue(elem, args[i + 3]).value])
  {
    var v1 := GetBValue(elem, args[i + 1]).value;
    var v2 := GetBValue(elem, args[i + 3]).value;
    ArrayOptionAppends(rt, args, i, st, name, elem);
    var s1 := ArrayOptionState(st, name, elem, v1);
    assert StoredItems(s1, name) == [v1];
    ArrayOptionAppends(rt, args, i + 2, s1, name, elem);
    var s2 := ArrayOptionState(s1, name, elem, v2);
    ParseFromAfterStep(rt, args, i, st, i + 2, s1);
    ParseFromAfterStep(rt, args, i + 2, s1, i + 4, s2);
  }

  // ---------------------------------------------------------------------------
  // The Option object.

  /** An option of the entry function: the record type, the record being filled (with
      its keys in insertion order), the names found and the operand arguments. */
  class CliOption {
    const name: string
    const recordType: map<string, FieldType>
    var record: map<string, CliValue>
    var keys: seq<string>
    var paramsFound: set<string>
    var operandArgs: seq<string>

    function State(): ParseState
      reads this
    {
      ParseState(record, keys, paramsFound, operandArgs)
    }

    /** A new option around a record created from the record type (holding its
        default values), with no names found and no operands yet. */
    constructor(name: string, recordType: map<string, FieldType>, record: map<string, CliValue>, keys: seq<string>)
      ensures this.name == name && this.recordType == recordType
      ensures State() == ParseState(record, keys, {}, [])
    {
      this.name := name;
      this.recordType := recordType;
      this.record := record;
      this.keys := keys;
      this.paramsFound := {};
      this.operandArgs := [];
    }

    method SetState(st: ParseState)
      modifies this
      ensures State() == st
    {
      record, keys, paramsFound, operandArgs := st.record, st.keys, st.found, st.operands;
    }

    /** getBArray: the array under the name, created and put when absent. */
    method GetBArray(paramName: string, fieldType: FieldType) returns (r: Result<FieldType, CliError>)
      requires fieldType.ArrayT?
      modifies this
      ensures r.Failure? <==> EnsureArray(old(State()), paramName, fieldType).Failure?
      ensures r.Failure? ==> r.error == EnsureArray(old(State()), paramName, fieldType).error && State() == old(State())
      ensures r.Success? ==> (State() == EnsureArray(old(State()), paramName, fieldType).value
                              && r.value == record[paramName].elemType)
    {
      if paramName !in record {
        Put(paramName, ArrV(fieldType.elem, []));
      } else if !record[paramName].ArrV? {
        return Failure(JavaException("ClassCastException"));
      }
      return Success(record[paramName].elemType);
    }

    /** `bArray.append(v)` on the array stored under the name. */
    method AppendTo(paramName: string, v: CliValue)
      requires paramName in record && record[paramName].ArrV?
      modifies this
      ensures State() == Append(old(State()), paramName, v)
    {
      record := record[paramName := record[paramName].(items := record[paramName].items + [v])];
    }

    /** `record.put(name, v)`. */
    method Put(paramName: string, v: CliValue)
      modifies this
      ensures State() == PutValue(old(State()), paramName, v)
    {
      if paramName !in record {
        keys := keys + [paramName];
      }
      record := record[paramName := v];
    }

    /** handleBoolean. */
    method HandleBoolean(paramName: string) returns (r: Result<bool, CliError>)
      modifies this
      ensures r.Failure? <==> HandleBooleanSpec(recordType, old(State()), paramName).Failure?
      ensures r.Failure? ==> r.error == HandleBooleanSpec(recordType, old(State()), paramName).error
      ensures r.Success? ==> (r.value == HandleBooleanSpec(recordType, old(State()), paramName).value.0
                              && State() == HandleBooleanSpec(recordType, old(State()), paramName).value.1)
    {
      if paramName !in recordType {
        return Failure(JavaException("NullPointerException"));
      }
      var fieldType := recordType[paramName];
      if fieldType == BooleanT {
        Put(paramName, BoolV(true));
        return Success(true);
      } else if fieldType.ArrayT? {
        var elementType := GetBArray(paramName, fieldType);
        if elementType.Failure? {
          return Failure(elementType.error);
        }
        if elementType.value == BooleanT {
          AppendTo(paramName, BoolV(true));
          return Success(true);
        }
      }
      return Success(false);
    }

    /** Stores the converted value text under the name: processNamedArg, and the
        value-taking branch of the loop with validateOptionArg done by the caller. */
    method StoreValueText(paramName: string, val: string) returns (r: Option<CliError>)
      modifies this
      ensures r.Some? <==> StoreValue(recordType, old(State()), paramName, val).Failure?
      ensures r.Some? ==> r.value == StoreValue(recordType, old(State()), paramName, val).error
      ensures r.None? ==> State() == StoreValue(recordType, old(State()), paramName, val).value
    {
      if paramName !in recordType {
        return Some(JavaException("NullPointerException"));
      }
      var fieldType := recordType[paramName];
      if fieldType.ArrayT? {
        var arrayType := GetBArray(paramName, fieldType);
        if arrayType.Failure? {
          return Some(arrayType.error);
        }
        var v := GetBValue(arrayType.value, val);
        if v.Failure? {
          return Some(v.error);
        }
        AppendTo(paramName, v.value);
        return None;
      }
      var v := GetBValue(fieldType, val);
      if v.Failure? {
        return Some(v.error);
      }
      Put(paramName, v.value);
      return None;
    }

    /** processNamedArg: the text after the first '=' stored under the name. */
    method ProcessNamedArg(arg: string, paramName: string) returns (r: Option<CliError>)
      requires IsNamedArg(arg)
      modifies this
      ensures r.Some? <==> StoreValue(recordType, old(State()), paramName, GetValueString(arg)).Failure?
      ensures r.Some? ==> r.value == StoreValue(recordType, old(State()), paramName, GetValueString(arg)).error
      ensures r.None? ==> State() == StoreValue(recordType, old(State()), paramName, GetValueString(arg)).value
    {
      var val := GetValueString(arg);
      r := StoreValueText(paramName, val);
    }

    /** One pass of parseRecord's loop: the index to go on from, or the error thrown. */
    method ParseOne(args: seq<string>, index: nat) returns (r: Result<nat, CliError>)
      requires index < |args|
      modifies this
      ensures r.Failure? <==> Step(recordType, args, index, old(State())).Failure?
      ensures r.Failure? ==> r.error == Step(recordType, args, index, old(State())).error
      ensures r.Success? ==> (r.value == Step(recordType, args, index, old(State())).value.0
                              && State() == Step(recordType, args, index, old(State())).value.1)
    {
      var i := index;
      var arg := args[i];
      i := i + 1;
      if IsOption(arg) {
        if |arg| == 2 {
          while i < |args|
            invariant index + 1 <= i <= |args|
            invariant State() == old(State()).(operands := old(State()).operands + args[index + 1..i])
          {
            operandArgs := operandArgs + [args[i]];
            i := i + 1;
            assert args[index + 1..i] == args[index + 1..i - 1] + [args[i - 1]];
          }
          return Success(i);
        }
        var paramName := GetNamedOptionName(arg);
        if !(paramName in record || paramName in recordType) {
          return Failure(UndefinedParameter(paramName));
        }
        paramsFound := paramsFound + {paramName};
        if IsNamedArg(arg) {
          var failed := ProcessNamedArg(arg, paramName);
          if failed.Some? {
            return Failure(failed.value);
          }
          return Success(i);
        }
        var handled := HandleBoolean(paramName);
        if handled.Failure? {
          return Failure(handled.error);
        }
        if handled.value {
          return Success(i);
        }
        if i < |args| {
          var val := args[i];
          if IsOption(val) {
            return Failure(MissingOptionValue(arg));
          }
          var failed := StoreValueText(paramName, val);
          if failed.Some? {
            return Failure(failed.value);
          }
          return Success(i + 1);
        }
        operandArgs := operandArgs + [arg];
        return Success(i);
      } else if StartsWith(arg, "-") {
        if |arg| > 1 && arg[1] == 'C' {
          if !IsNamedArg(arg) {
            i := i + 1;
          }
          return Success(i);
        }
        return Failure(UndefinedParameter(arg));
      }
      operandArgs := operandArgs + [arg];
      return Success(i);
    }

    /** validateRecord: the error for the first key, in insertion order, that was
        neither given nor optional. */
    method ValidateRecord() returns (r: Option<CliError>)
      ensures r.None? <==> FirstMissing(recordType, keys, paramsFound).None?
      ensures r.Some? ==> r.value == MissingError(recordType, FirstMissing(recordType, keys, paramsFound).value)
    {
      for i := 0 to |keys|
        invariant FirstMissing(recordType, keys, paramsFound) == FirstMissing(recordType, keys[i..], paramsFound)
      {
        var key := keys[i];
        assert keys[i..][1..] == keys[i + 1..];
        if key !in paramsFound {
          if key in recordType && Optional(recordType[key]) {
            continue;
          }
          return Some(MissingError(recordType, key));
        }
      }
      return None;
    }

    /** parseRecord: the filled record, or the error the parse or the validation raised. */
    method ParseRecord(args: seq<string>) returns (r: Result<map<string, CliValue>, CliError>)
      modifies this
      ensures r.Failure? <==> ParseRecordSpec(recordType, args, old(State())).Failure?
      ensures r.Failure? ==> r.error == ParseRecordSpec(recordType, args, old(State())).error
      ensures r.Success? ==> State() == ParseRecordSpec(recordType, args, old(State())).value && r.value == record
    {
      var index: nat := 0;
      while index < |args|
        invariant ParseFrom(recordType, args, index, State()) == ParseFrom(recordType, args, 0, old(State()))
        decreases |args| - index
      {
        var next := ParseOne(args, index);
        if next.Failure? {
          return Failure(next.error);
        }
        index := next.value;
      }
      var missing := ValidateRecord();
      if missing.Some? {
        return Failure(missing.value);
      }
      return Success(record);
    }

    /** getOperandArgs. */
    function GetOperandArgs(): seq<string>
      reads this
    {
      operandArgs
    }
  }
}
