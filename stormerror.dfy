/**
 * Errors produced by the test engine (package stormerror): the error that
 * wraps a recovered panic, and the error values that flow from test bodies
 * and hooks into test-case statuses.
 */
module StormError {
  import opened Common

  /**
   * A value handed to Go's panic, as far as its %v rendering goes.
   * RuntimeNilPanic is what recover() yields after panic(nil) since Go 1.21
   * (a *runtime.PanicNilError), so a recovered value is never nil.
   */
  datatype PanicValue =
    | NilValue
    | StringValue(s: string)
    | IntValue(i: int)
    | BoolValue(b: bool)
    | StructValue(fields: seq<PanicValue>)
    | RuntimeNilPanic

  /** Go's %v rendering of a panic value. */
  function Render(v: PanicValue): (r: string)
    decreases v
  {
    match v
    case NilValue => "<nil>"
    case StringValue(s) => s
    case IntValue(i) => IntToString(i)
    case BoolValue(b) => if b then "true" else "false"
    case StructValue(fs) =>
      "{" + Join(seq(|fs|, k requires 0 <= k < |fs| => Render(fs[k])), " ") + "}"
    case RuntimeNilPanic => "panic called with nil argument"
  }

  const PanicPrefix := "panic occurred: "

  /** The error that runCatchPanic returns when the function it runs panics. */
  datatype PanicError = PanicError(value: PanicValue, stack: seq<bv8>)
  {
    /** PanicError.Error(): the prefix followed by the %v rendering of the value. */
    function Error(): (r: string)
      ensures StartsWith(r, PanicPrefix)
      ensures r[|PanicPrefix|..] == Render(value)
    {
      PanicPrefix + Render(value)
    }
  }

  /** NewPanicError keeps the panic value and the stack bytes unchanged. */
  function NewPanicError(value: PanicValue, stack: seq<bv8>): (e: PanicError)
    ensures e.value == value && e.stack == stack
  {
    PanicError(value, stack)
  }

  /** An error value: an ordinary error with its message, or a recovered panic. */
  datatype Error = Plain(text: string) | Panic(p: PanicError)
  {
    /** err.Error() */
    function Text(): string
    {
      match this
      case Plain(t) => t
      case Panic(p) => p.Error()
    }
  }

  /** Two panic errors print the same message exactly when their values render alike. */
  lemma PanicErrorTextDeterminesRendering(a: PanicError, b: PanicError)
    ensures a.Error() == b.Error() <==> Render(a.value) == Render(b.value)
  {
    if a.Error() == b.Error() {
      assert a.Error()[|PanicPrefix|..] == b.Error()[|PanicPrefix|..];
    }
  }

  /** A nil panic value prints as "panic occurred: <nil>". */
  lemma NilPanicMessage(stack: seq<bv8>)
    ensures NewPanicError(NilValue, stack).Error() == "panic occurred: <nil>"
  {
  }

  /** A struct with one string field prints as Go's %v does: the field in braces. */
  lemma StructPanicMessage(field: string, stack: seq<bv8>)
    ensures NewPanicError(StructValue([StringValue(field)]), stack).Error()
            == "panic occurred: {" + field + "}"
  {
    var fs := [StringValue(field)];
    var parts := seq(|fs|, k requires 0 <= k < |fs| => Render(fs[k]));
    assert parts == [field];
  }

  /** The integer 123 prints as "panic occurred: 123". */
  lemma IntPanicExample(stack: seq<bv8>)
    ensures NewPanicError(IntValue(123), stack).Error() == "panic occurred: 123"
  {
    assert NatToString(1) == "1";
    assert NatToString(12) == "12";
    assert NatToString(123) == "123";
  }

  /** A panicking integer is printed with its decimal digits, which read back to it. */
  lemma IntPanicMessage(n: nat, stack: seq<bv8>)
    ensures var m := NewPanicError(IntValue(n), stack).Error();
            StartsWith(m, PanicPrefix) &&
            (forall k :: |PanicPrefix| <= k < |m| ==> IsDigit(m[k])) &&
            ParseNat(m[|PanicPrefix|..]) == n
  {
    ParseNatToString(n);
  }
}
