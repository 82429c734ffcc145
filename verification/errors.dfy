/**
 * The error taxonomy of package cli (pkg/error.go), and the Go `error`
 * values that the rest of the model passes around.
 */
module Errors {
  import opened Outcomes

  /** The one error code the package declares (the first `iota`): "show usage". */
  const ErrHelp: int := 0

  /** cli.Error: a code and the message it wraps. */
  datatype Error = Error(code: int, msg: string)

  const RequiredSuffix: string := " is required"
  const WrongFormatSuffix: string := " has wrong format"

  /** The flag named by a message of the form "-<flag><suffix>", if it has that form. */
  function FlagNamed(msg: string, suffix: string): (r: Option<string>)
    ensures r.Some? ==> msg == "-" + r.value + suffix
  {
    if |msg| >= 1 + |suffix| && msg[0] == '-' && msg[|msg| - |suffix|..] == suffix then
      var k := |msg| - |suffix|;
      assert msg == msg[..1] + msg[1..k] + msg[k..];
      Some(msg[1..k])
    else
      None
  }

  /** Reading the flag back out of a message built from it gives the flag. */
  lemma {:induction false} FlagNamedInverts(flag: string, suffix: string)
    ensures FlagNamed("-" + flag + suffix, suffix) == Some(flag)
  {
    var m := "-" + flag + suffix;
    assert m[|m| - |suffix|..] == suffix;
    assert m[1..|m| - |suffix|] == flag;
  }

  /** A required flag was not given. */
  function ErrFlagRequired(flag: string): (e: Error)
    ensures e.code == ErrHelp
    ensures FlagNamed(e.msg, RequiredSuffix) == Some(flag)
  {
    FlagNamedInverts(flag, RequiredSuffix);
    Error(ErrHelp, "-" + flag + RequiredSuffix)
  }

  /** A flag was given a value of the wrong shape. */
  function ErrWrongFormat(flag: string): (e: Error)
    ensures e.code == ErrHelp
    ensures FlagNamed(e.msg, WrongFormatSuffix) == Some(flag)
  {
    FlagNamedInverts(flag, WrongFormatSuffix);
    Error(ErrHelp, "-" + flag + WrongFormatSuffix)
  }

  /**
   * The two constructors never produce the same message, whatever flags they
   * name, and both messages open with "-" and the flag.
   */
  lemma {:induction false} ConstructorsDiffer(f: string, g: string)
    ensures ErrFlagRequired(f).msg != ErrWrongFormat(g).msg
    ensures "-" + f <= ErrFlagRequired(f).msg && "-" + f <= ErrWrongFormat(f).msg
  {
    var a, b := ErrFlagRequired(f).msg, ErrWrongFormat(g).msg;
    assert a[|a| - 1] == 'd';
    assert b[|b| - 1] == 't';
    var c := ErrWrongFormat(f).msg;
    assert c[..|f| + 1] == "-" + f;
    assert a[..|f| + 1] == "-" + f;
  }

  /** A Go `error` value as the dispatcher and the commands see it. */
  datatype Failure =
    | Coded(error: Error)   // a *cli.Error
    | FlagHelp              // flag.ErrHelp, the flag package's "help requested" sentinel
    | Generic(text: string) // any other error: fmt.Errorf, the OS, the Go parser

  /** The text the flag package gives flag.ErrHelp. */
  const FlagHelpText: string := "flag: help requested"

  /** err.Error(): what printing the error shows. */
  function Message(f: Failure): string
  {
    match f
    case Coded(e) => e.msg
    case FlagHelp => FlagHelpText
    case Generic(t) => t
  }

  /** (*Error).Error() shows the wrapped text unchanged, so the code never reaches the text. */
  lemma MessageIgnoresCode(e: Error, code: int)
    ensures Message(Coded(e)) == e.msg
    ensures Message(Coded(Error(code, e.msg))) == Message(Coded(e))
  {
  }
}
