// Vocabulary shared by the kernel, the durable store and the service
// (internal/council/domain.go, internal/storage/types.go).
module Domain {
  datatype Option<+T> = None | Some(value: T)

  datatype Result<+T, +E> = Ok(value: T) | Err(error: E)

  datatype State = Parked | Running | Archived

  datatype Lifecycle = SessionActive | SessionArchived

  datatype Connection = ControllerConnected | ControllerDisconnected

  datatype Visibility = VisibilityReachable | VisibilityHostLost

  datatype TurnStatus =
    | TurnPending
    | TurnRunning
    | TurnCompleted
    | TurnInterrupted
    | TurnCancelling
    | TurnCancelled
    | TurnFailed
  {
    // The four outcomes after which a turn never executes again.
    predicate Terminal() {
      TurnCompleted? || TurnCancelled? || TurnFailed? || TurnInterrupted?
    }

    // A reserved turn: released and not yet terminal.
    predicate Live() {
      TurnRunning? || TurnCancelling?
    }

    function Name(): string {
      match this
      case TurnPending => "pending"
      case TurnRunning => "running"
      case TurnCompleted => "completed"
      case TurnInterrupted => "interrupted"
      case TurnCancelling => "cancelling"
      case TurnCancelled => "cancelled"
      case TurnFailed => "failed"
    }
  }

  const ROSTER := {"opencode", "claude", "codex", "agy"}

  // The characters that Go's strings.TrimSpace removes.
  predicate IsSpace(c: char) {
    c in {'\t', '\n', '\r', ' ', '\U{0B}', '\U{0C}', '\U{85}', '\U{A0}', '\U{1680}', '\U{2028}', '\U{2029}',
          '\U{202F}', '\U{205F}', '\U{3000}'}
    || '\U{2000}' <= c <= '\U{200A}'
  }

  // strings.TrimSpace(s) == ""
  predicate Blank(s: string) {
    forall i :: 0 <= i < |s| ==> IsSpace(s[i])
  }

  function Digit(n: nat): (c: char)
    requires n < 10
  {
    "0123456789"[n]
  }

  // The rendering of %d.
  function Decimal(n: nat): (s: string)
    ensures s != []
    ensures forall i :: 0 <= i < |s| ==> '0' <= s[i] <= '9'
  {
    if n < 10 then [Digit(n)] else Decimal(n / 10) + [Digit(n % 10)]
  }

  lemma {:induction false} DecimalInjective(m: nat, n: nat)
    requires Decimal(m) == Decimal(n)
    ensures m == n
  {
    var s, t := Decimal(m), Decimal(n);
    assert s[|s| - 1] == Digit(m % 10) && t[|t| - 1] == Digit(n % 10);
    if m >= 10 && n >= 10 {
      assert s[..|s| - 1] == Decimal(m / 10) && t[..|t| - 1] == Decimal(n / 10);
      DecimalInjective(m / 10, n / 10);
    }
  }

  // A number followed by a fixed text that begins with no digit determines the
  // number and what follows.
  lemma {:induction false} DecimalThen(m: nat, n: nat, sep: string, a: string, b: string)
    requires sep != [] && !('0' <= sep[0] <= '9')
    requires Decimal(m) + sep + a == Decimal(n) + sep + b
    ensures m == n && a == b
  {
    var s, t := Decimal(m), Decimal(n);
    var whole := s + sep + a;
    assert whole == t + sep + b;
    assert whole[|s|] == sep[0] && whole[|t|] == sep[0];
    assert forall i :: 0 <= i < |s| ==> whole[i] == s[i];
    assert forall i :: 0 <= i < |t| ==> whole[i] == t[i];
    assert |s| == |t|;
    assert s == whole[..|s|] == t;
    assert a == whole[|s| + |sep|..] == b;
    DecimalInjective(m, n);
  }

  // Text up to the first underscore determines the number and the rest.
  lemma DecimalPrefixInjective(m: nat, n: nat, a: string, b: string)
    requires Decimal(m) + "_" + a == Decimal(n) + "_" + b
    ensures m == n && a == b
  {
    DecimalThen(m, n, "_", a, b);
  }

  // What follows a fixed text is determined.
  lemma AfterPrefix(p: string, a: string, b: string)
    requires p + a == p + b
    ensures a == b
  {
    assert a == (p + a)[|p|..] == (p + b)[|p|..] == b;
  }
}
