/** The argument definitions of an entry function (runtime internal/cli/CliSpec.java):
    turns the command line into the values handed to the function, each parameter
    followed by the `true` that marks it as given, after a leading strand slot. */
module CliSpecs {
  import opened Wrappers
  import opened CliOptions

  /** A slot of the argument array: null, the option record, or the boolean true. */
  datatype MainArg = NullArg | RecordArg(record: map<string, CliValue>) | TrueArg

  /** Each parameter value followed by its flag. */
  function Interleave(params: seq<MainArg>): (r: seq<MainArg>)
  {
    if params == [] then [] else [params[0], TrueArg] + Interleave(params[1..])
  }

  lemma {:induction false} InterleaveAt(params: seq<MainArg>)
    ensures |Interleave(params)| == 2 * |params|
    ensures forall k | 0 <= k < |params| :: Interleave(params)[2 * k] == params[k] && Interleave(params)[2 * k + 1] == TrueArg
  {
    if params != [] {
      InterleaveAt(params[1..]);
      var r := Interleave(params);
      forall k | 1 <= k < |params|
        ensures r[2 * k] == params[k] && r[2 * k + 1] == TrueArg
      {
        assert r[2 * k] == Interleave(params[1..])[2 * (k - 1)];
        assert r[2 * k + 1] == Interleave(params[1..])[2 * (k - 1) + 1];
      }
    }
  }

  /** processOperands: one value per declared operand, all null (the values of the
      operand arguments are not converted). */
  function ProcessOperands(operandCount: nat): (r: seq<MainArg>)
    ensures |r| == operandCount && forall i | 0 <= i < |r| :: r[i] == NullArg
  {
    seq(operandCount, _ => NullArg)
  }

  /** The parameters in order: the option record, when there is an option, then the operands. */
  function Parameters(record: Option<map<string, CliValue>>, operandCount: nat): seq<MainArg> {
    (if record.Some? then [RecordArg(record.value)] else []) + ProcessOperands(operandCount)
  }

  /** What getMainArgs returns: the strand slot, then every parameter with its flag. */
  function MainArgsLayout(record: Option<map<string, CliValue>>, operandCount: nat): seq<MainArg> {
    [NullArg] + Interleave(Parameters(record, operandCount))
  }

  /** The array has (parameters + 1) * 2 - 1 slots: slot 0 is null, every even slot
      after it is true, slot 1 holds the record when there is one, and every other
      odd slot is a null operand. */
  lemma {:induction false} MainArgsShape(record: Option<map<string, CliValue>>, operandCount: nat)
    ensures var r := MainArgsLayout(record, operandCount);
      && |r| == (if record.Some? then (operandCount + 1) * 2 + 1 else operandCount * 2 + 1)
      && r[0] == NullArg
      && (forall i | 1 <= i < |r| && i % 2 == 0 :: r[i] == TrueArg)
      && (record.Some? ==> r[1] == RecordArg(record.value))
      && (forall i | 1 <= i < |r| && i % 2 == 1 && !(record.Some? && i == 1) :: r[i] == NullArg)
  {
    var ps := Parameters(record, operandCount);
    InterleaveAt(ps);
    var r := MainArgsLayout(record, operandCount);
    forall i | 1 <= i < |r|
      ensures i % 2 == 0 ==> r[i] == TrueArg
      ensures i % 2 == 1 ==> r[i] == ps[(i - 1) / 2]
    {
      assert r[i] == Interleave(ps)[i - 1];
      if i % 2 == 0 {
        assert i - 1 == 2 * ((i - 2) / 2) + 1;
      } else {
        assert i - 1 == 2 * ((i - 1) / 2);
      }
    }
  }

  /** The position of the first argument that is an option, if any. */
  function FirstOptionArg(args: seq<string>): (r: Option<nat>)
    ensures r.Some? ==> (r.value < |args| && IsOption(args[r.value])
                         && forall k | 0 <= k < r.value :: !IsOption(args[k]))
    ensures r.None? ==> forall k | 0 <= k < |args| :: !IsOption(args[k])
  {
    if args == [] then None
    else if IsOption(args[0]) then Some(0)
    else
      var rest := FirstOptionArg(args[1..]);
      if rest.Some? then Some(rest.value + 1) else None
  }

  /** parseOperandArgs: without an option every argument is an operand; the first one
      that looks like an option is rejected. */
  method ParseOperandArgs(args: seq<string>) returns (r: Result<seq<string>, CliError>)
    ensures r.Failure? <==> exists k | 0 <= k < |args| :: IsOption(args[k])
    ensures r.Failure? ==> r.error == InvalidInteger(args[FirstOptionArg(args).value])
    ensures r.Success? ==> r.value == args
  {
    var operandArgs: seq<string> := [];
    for i := 0 to |args|
      invariant operandArgs == args[..i]
      invariant forall k | 0 <= k < i :: !IsOption(args[k])
    {
      if IsOption(args[i]) {
        assert FirstOptionArg(args) == Some(i);
        return Failure(InvalidInteger(args[i]));
      }
      operandArgs := operandArgs + [args[i]];
    }
    assert args[..|args|] == args;
    return Success(operandArgs);
  }

  /** The array getMainArgs builds: slot 0 left null, the record and its flag when
      there is one, then each processed operand followed by true. */
  method FillMainArgs(record: Option<map<string, CliValue>>, processedOperands: seq<MainArg>)
    returns (m: array<MainArg>)
    requires forall i | 0 <= i < |processedOperands| :: processedOperands[i] == NullArg
    ensures fresh(m)
    ensures m[..] == MainArgsLayout(record, |processedOperands|)
  {
    var start := 1;
    if record.Some? {
      m := new MainArg[(|processedOperands| + 1) * 2 + 1](_ => NullArg);
      m[start] := RecordArg(record.value);
      start := start + 1;
      m[start] := TrueArg;
      start := start + 1;
    } else {
      m := new MainArg[|processedOperands| * 2 + 1](_ => NullArg);
    }
    ghost var layout := MainArgsLayout(record, |processedOperands|);
    MainArgsShape(record, |processedOperands|);
    var index := 0;
    while start < m.Length
      invariant m.Length == |layout|
      invariant start == 2 * index + (if record.Some? then 3 else 1) && start <= m.Length
      invariant forall i | 0 <= i < start :: m[i] == layout[i]
      decreases m.Length - start
    {
      m[start] := processedOperands[index];
      start := start + 1;
      index := index + 1;
      m[start] := TrueArg;
      start := start + 1;
    }
    assert m[..] == layout;
  }

  /** The command-line definition of an entry function: its option (which may be
      absent), the number of its operands, and the arguments. */
  class CliSpec {
    const option: CliOption?
    const operandCount: nat
    const hasRestParam: bool
    const args: seq<string>
    var mainArgs: array<MainArg>

    constructor(option: CliOption?, operandCount: nat, args: seq<string>, hasRestParam: bool)
      ensures this.option == option && this.operandCount == operandCount
      ensures this.args == args && this.hasRestParam == hasRestParam
    {
      this.option := option;
      this.operandCount := operandCount;
      this.args := args;
      this.hasRestParam := hasRestParam;
      this.mainArgs := new MainArg[0];
    }

    /** getMainArgs: with an option, its parsed record and then the operands; without,
        the operands alone, after checking that no argument is an option. */
    method GetMainArgs() returns (r: Result<array<MainArg>, CliError>)
      modifies this, option
      ensures option != null ==>
        (r.Failure? <==> ParseRecordSpec(option.recordType, args, old(option.State())).Failure?)
      ensures option != null && r.Failure? ==>
        r.error == ParseRecordSpec(option.recordType, args, old(option.State())).error
      ensures option != null && r.Success? ==>
        (option.State() == ParseRecordSpec(option.recordType, args, old(option.State())).value
         && r.value[..] == MainArgsLayout(Some(option.record), operandCount))
      ensures option == null ==> (r.Failure? <==> FirstOptionArg(args).Some?)
      ensures option == null && r.Failure? ==> r.error == InvalidInteger(args[FirstOptionArg(args).value])
      ensures option == null && r.Success? ==> r.value[..] == MainArgsLayout(None, operandCount)
      ensures r.Success? ==> fresh(r.value) && mainArgs == r.value
    {
      var m: array<MainArg>;
      if option != null {
        var parsed := option.ParseRecord(args);
        if parsed.Failure? {
          return Failure(parsed.error);
        }
        m := FillMainArgs(Some(parsed.value), ProcessOperands(operandCount));
      } else {
        var operandArgs := ParseOperandArgs(args);
        if operandArgs.Failure? {
          return Failure(operandArgs.error);
        }
        m := FillMainArgs(None, ProcessOperands(operandCount));
      }
      mainArgs := m;
      return Success(m);
    }
  }
}
