/**
  The handoff to the elevated process: the arguments that the parent builds reach the child's
  parser through the Windows command line.
*/
module Relaunch {
  import opened Wrappers
  import opened Decimal
  import opened ArgvQuoting

  const U32_MAX: nat := 0xFFFF_FFFF
  const RESUME_ARG := "--resume-pending-connect"
  const PID_PREFIX := "--wait-parent-pid="

  datatype RelaunchArgs = RelaunchArgs(resume: bool, parentPid: nat)

  datatype RelaunchError = InvalidParentPid(value: string)

  function Built(parentPid: nat): seq<string> {
    [RESUME_ARG] + if parentPid > 0 then [PID_PREFIX + Printed(parentPid)] else []
  }

  method BuildElevatedRelaunchArgs(parentPid: nat) returns (args: seq<string>)
    requires parentPid <= U32_MAX
    ensures args == ["--resume-pending-connect"]
      + if parentPid == 0 then [] else ["--wait-parent-pid=" + Printed(parentPid)]
    ensures args == Built(parentPid)
  {
    args := [RESUME_ARG];
    if parentPid > 0 {
      args := args + [PID_PREFIX + Printed(parentPid)];
    }
  }

  predicate GivesPid(arg: string) {
    arg != RESUME_ARG && PID_PREFIX <= arg
  }

  function PidText(arg: string): string
    requires GivesPid(arg)
  {
    arg[|PID_PREFIX|..]
  }

  /** A pid argument is good when it parses as a positive u32. */
  predicate GoodPid(arg: string)
    requires GivesPid(arg)
  {
    var pid := Parsed(PidText(arg), U32_MAX);
    pid.Some? && pid.value > 0
  }

  /** What marks a pid argument, and when it is good: all but 0 that a u32 can hold. */
  lemma PidArguments(a: string)
    ensures GivesPid(a) <==> "--wait-parent-pid=" <= a
    ensures GivesPid(a) ==>
      (GoodPid(a) <==> exists pid :: 0 < pid <= 0xFFFF_FFFF && Parsed(a[18..], 0xFFFF_FFFF) == Some(pid))
    ensures RESUME_ARG == "--resume-pending-connect"
  {
    hide Parsed;
    assert RESUME_ARG[2] == 'r' && PID_PREFIX[2] == 'w';
    if GivesPid(a) {
      assert PidText(a) == a[18..];
      var pid := Parsed(a[18..], 0xFFFF_FFFF);
      assert GoodPid(a) <==> pid.Some? && pid.value > 0;
      if pid.Some? {
        ParsedIsBounded(a[18..], 0xFFFF_FFFF);
        assert pid == Some(pid.value);
      }
    }
  }

  /** The last pid given, or 0. */
  function LastPid(args: seq<string>): nat
    requires forall a <- args :: GivesPid(a) ==> GoodPid(a)
  {
    if args == [] then 0
    else
      var last := args[|args| - 1];
      assert last in args;
      if GivesPid(last) then
        assert GoodPid(last);
        Parsed(PidText(last), U32_MAX).value
      else LastPid(args[..|args| - 1])
  }

  /** The pid that counts is the last one given. */
  lemma {:induction false} LastPidWins(args: seq<string>, i: nat)
    requires forall a <- args :: GivesPid(a) ==> GoodPid(a)
    requires i < |args| && GivesPid(args[i]) && forall j :: i < j < |args| ==> !GivesPid(args[j])
    ensures Parsed(args[i][18..], 0xFFFF_FFFF) == Some(LastPid(args))
    decreases |args|
  {
    hide GivesPid, GoodPid, Parsed;
    var n := |args| - 1;
    assert args[n] in args && forall a <- args[..n] :: a in args;
    if i == n {
      PidOfGood(args[n]);
    } else {
      LastPidWins(args[..n], i);
    }
  }

  lemma {:induction false} NoPidIsZero(args: seq<string>)
    requires forall a <- args :: !GivesPid(a)
    ensures LastPid(args) == 0
  {
    hide GivesPid, GoodPid, Parsed;
    if args != [] {
      var n := |args| - 1;
      assert args[n] in args && forall a <- args[..n] :: a in args;
      NoPidIsZero(args[..n]);
    }
  }

  lemma PidOfGood(a: string)
    requires GivesPid(a) && GoodPid(a)
    ensures Parsed(PidText(a), U32_MAX).Some? && PidText(a) == a[18..] && U32_MAX == 0xFFFF_FFFF
  {
    hide Parsed;
  }

  /** Arguments that are neither marker nor pid are skipped; the first bad pid is reported. */
  method ParseElevatedRelaunchArgs(args: seq<string>)
    returns (r: Result<RelaunchArgs, RelaunchError>)
    ensures r.Success? <==> forall a <- args :: GivesPid(a) ==> GoodPid(a)
    ensures r.Success? ==> r.value.parentPid == LastPid(args)
    ensures r.Success? ==>
      (r.value.resume <==> exists a <- args :: a == RESUME_ARG || GivesPid(a))
    ensures r.Failure? ==> exists i :: 0 <= i < |args| && FirstBad(args, i, r.error)
  {
    var parsed := RelaunchArgs(false, 0);
    for i := 0 to |args|
      invariant forall a <- args[..i] :: GivesPid(a) ==> GoodPid(a)
      invariant parsed.parentPid == LastPid(args[..i])
      invariant parsed.resume <==> exists a <- args[..i] :: a == RESUME_ARG || GivesPid(a)
    {
      var arg := args[i];
      assert args[..i + 1] == args[..i] + [arg];
      if arg == RESUME_ARG {
        parsed := parsed.(resume := true);
      } else if PID_PREFIX <= arg {
        var value := arg[|PID_PREFIX|..];
        var pid := Parsed(value, U32_MAX);
        if pid.None? || pid.value == 0 {
          assert FirstBad(args, i, InvalidParentPid(value));
          return Failure(InvalidParentPid(value));
        }
        parsed := RelaunchArgs(true, pid.value);
      }
    }
    assert args[..|args|] == args;
    return Success(parsed);
  }

  predicate FirstBad(args: seq<string>, i: nat, error: RelaunchError)
    requires i < |args|
  {
    && GivesPid(args[i]) && !GoodPid(args[i]) && error == InvalidParentPid(PidText(args[i]))
    && forall a <- args[..i] :: GivesPid(a) ==> GoodPid(a)
  }

  lemma MarkersNulFree()
    ensures NulFree(RESUME_ARG) && NulFree(PID_PREFIX)
    ensures |RESUME_ARG| < 100 && |PID_PREFIX| < 100
  {
  }

  lemma TenDigitsHoldU32()
    ensures U32_MAX < Pow10(10)
  {
    assert Pow10(5) == 100_000;
    assert Pow10(10) == 100_000 * Pow10(5);
  }

  lemma BuiltIsOrdinary(parentPid: nat)
    requires parentPid <= U32_MAX
    ensures forall a <- Built(parentPid) :: '\0' !in a && |a| < 0x8000_0000
  {
    hide Printed, Pow10;
    PrintedIsDecimal(parentPid);
    TenDigitsHoldU32();
    PrintedLength(parentPid, 10);
    MarkersNulFree();
    assert NulFree(Printed(parentPid));
  }

  lemma BuiltGivesPid(parentPid: nat)
    requires 0 < parentPid <= U32_MAX
    ensures var a := PID_PREFIX + Printed(parentPid);
      GivesPid(a) && GoodPid(a) && Parsed(PidText(a), U32_MAX) == Some(parentPid)
  {
    ParsesPrinted(parentPid, U32_MAX);
    hide Printed, Parsed;
    var a := PID_PREFIX + Printed(parentPid);
    assert a[2] == 'w' && RESUME_ARG[2] == 'r';
    assert PidText(a) == Printed(parentPid);
  }

  /** What the parser makes of the built arguments. */
  lemma BuiltParses(parentPid: nat)
    requires parentPid <= U32_MAX
    ensures var args := Built(parentPid);
      && (forall a <- args :: GivesPid(a) ==> GoodPid(a))
      && LastPid(args) == parentPid && args[0] == RESUME_ARG
  {
    assert !GivesPid(RESUME_ARG);
    if parentPid > 0 {
      BuiltGivesPid(parentPid);
      assert Built(parentPid) == [RESUME_ARG, PID_PREFIX + Printed(parentPid)];
    } else {
      assert Built(parentPid)[..0] == [];
    }
    hide Printed, Parsed, GivesPid, GoodPid, PidText;
  }

  /** The whole way: for every u32 parent pid, 0 included, the elevated process parses what
      the parent built into "resume" and that very pid. */
  method Handoff(parentPid: nat, rule: PairRule) returns (r: Result<RelaunchArgs, RelaunchError>)
    requires parentPid <= 0xFFFF_FFFF
    ensures r == Success(RelaunchArgs(true, parentPid))
  {
    hide Received, GoodPid, LastPid, GivesPid, Built, Printed;
    var args := BuildElevatedRelaunchArgs(parentPid);
    BuiltIsOrdinary(parentPid);
    OrdinaryArgumentsSurvive(args, rule);
    BuiltParses(parentPid);
    assert args[0] in args;
    r := ParseElevatedRelaunchArgs(Received(args, rule));
  }
}
