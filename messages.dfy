/** The feedback text a guess produces: one of three message formats, each
    carrying the attempt number in decimal. */
module Messages {
  import opened Decimal

  /** The outcome of the three-way comparison of a guess with the target. */
  datatype Verdict = TooLow | TooHigh | Correct

  datatype Option<T> = None | Some(value: T)

  const LowPrefix: string := "Too low! Attempt "
  const HighPrefix: string := "Too high! Attempt "
  const WinPrefix: string := "Congratulations! You guessed the number in "
  const WinSuffix: string := " attempts!"

  /** The message shown for verdict `v` on attempt number `attempt`. */
  function Render(v: Verdict, attempt: nat): string {
    match v
    case TooLow => LowPrefix + Show(attempt)
    case TooHigh => HighPrefix + Show(attempt)
    case Correct => WinPrefix + Show(attempt) + WinSuffix
  }

  /** Recovers verdict and attempt number from a message, and rejects every
      string that is not a message. */
  function Parse(m: string): Option<(Verdict, nat)> {
    if |m| > |LowPrefix| && m[..|LowPrefix|] == LowPrefix && Canonical(m[|LowPrefix|..]) then
      Some((TooLow, Value(m[|LowPrefix|..])))
    else if |m| > |HighPrefix| && m[..|HighPrefix|] == HighPrefix && Canonical(m[|HighPrefix|..]) then
      Some((TooHigh, Value(m[|HighPrefix|..])))
    else if |m| > |WinPrefix| + |WinSuffix| && m[..|WinPrefix|] == WinPrefix
         && m[|m| - |WinSuffix|..] == WinSuffix && Canonical(m[|WinPrefix|..|m| - |WinSuffix|]) then
      Some((Correct, Value(m[|WinPrefix|..|m| - |WinSuffix|])))
    else
      None
  }

  /** Every message reads back as the verdict and attempt number it was made from. */
  lemma ParseRender(v: Verdict, attempt: nat)
    ensures Parse(Render(v, attempt)) == Some((v, attempt))
  {
    var digits := Show(attempt);
    ValueShow(attempt);
    var m := Render(v, attempt);
    match v
    case TooLow =>
      assert m[..|LowPrefix|] == LowPrefix && m[|LowPrefix|..] == digits;
    case TooHigh =>
      assert m[4] == 'h' != LowPrefix[4];
      assert m[..|HighPrefix|] == HighPrefix && m[|HighPrefix|..] == digits;
    case Correct =>
      assert m[..|WinPrefix|] == WinPrefix;
      assert m[0] == WinPrefix[0] == 'C';
      assert m[..|LowPrefix|] != LowPrefix && m[..|HighPrefix|] != HighPrefix;
      assert m[|m| - |WinSuffix|..] == WinSuffix;
      assert m[|WinPrefix|..|m| - |WinSuffix|] == digits;
  }

  /** Conversely, whatever `Parse` accepts is exactly the rendering of what it returns. */
  lemma RenderParse(m: string, v: Verdict, attempt: nat)
    requires Parse(m) == Some((v, attempt))
    ensures Render(v, attempt) == m
  {
    if |m| > |LowPrefix| && m[..|LowPrefix|] == LowPrefix && Canonical(m[|LowPrefix|..]) {
      ShowValue(m[|LowPrefix|..]);
      assert m == m[..|LowPrefix|] + m[|LowPrefix|..];
    } else if |m| > |HighPrefix| && m[..|HighPrefix|] == HighPrefix && Canonical(m[|HighPrefix|..]) {
      ShowValue(m[|HighPrefix|..]);
      assert m == m[..|HighPrefix|] + m[|HighPrefix|..];
    } else {
      var mid := m[|WinPrefix|..|m| - |WinSuffix|];
      ShowValue(mid);
      assert m == m[..|WinPrefix|] + mid + m[|m| - |WinSuffix|..];
    }
  }

  /** Different (verdict, attempt) pairs never produce the same message. */
  lemma RenderInjective(v: Verdict, a: nat, w: Verdict, b: nat)
    requires Render(v, a) == Render(w, b)
    ensures v == w && a == b
  {
    ParseRender(v, a);
    ParseRender(w, b);
  }
}
