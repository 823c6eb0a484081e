/**
 * The device-name check `^\d+-\d+(\.\d+)*$` applied with `re.match`
 * (scripts/usb_reset.py:164-165). In Python 2 `\d` on a byte string is
 * `[0-9]`, and `$` matches at the end of the string or just before a final
 * newline. The grammar is stated declaratively (DeviceName) and recognised by
 * a five-state scanner (Recognises); the two are proved to agree.
 */
module DeviceNames {
  import opened Decimal

  /** Position `i` of a `(\.\d+)*` tail: a digit, or a dot with a digit after it. */
  predicate TailCharOk(t: string, i: nat)
    requires i < |t|
  {
    IsDigit(t[i]) || (t[i] == '.' && i + 1 < |t| && IsDigit(t[i + 1]))
  }

  /** digits and dots in which every dot is followed by a digit. */
  predicate DottedTail(t: string) {
    forall i :: 0 <= i < |t| ==> TailCharOk(t, i)
  }

  /** `\d+(\.\d+)*` */
  predicate PortPath(t: string) {
    |t| > 0 && IsDigit(t[0]) && DottedTail(t)
  }

  /** `\d+-\d+(\.\d+)*`, the whole string: a bus number, a dash, a port path. */
  predicate DeviceName(s: string) {
    exists i :: 0 < i < |s| && s[i] == '-' && IsDigits(s[..i]) && PortPath(s[i + 1..])
  }

  /** What `re.match` with a trailing `$` accepts. */
  predicate MatchesPattern(s: string) {
    DeviceName(s) || (|s| > 0 && s[|s| - 1] == '\n' && DeviceName(s[..|s| - 1]))
  }

  datatype ScanState = Start | Bus | NeedDigit | Port | Dead

  function Step(q: ScanState, c: char): ScanState {
    match q
    case Start => if IsDigit(c) then Bus else Dead
    case Bus => if IsDigit(c) then Bus else if c == '-' then NeedDigit else Dead
    case NeedDigit => if IsDigit(c) then Port else Dead
    case Port => if IsDigit(c) then Port else if c == '.' then NeedDigit else Dead
    case Dead => Dead
  }

  function Scan(q: ScanState, s: string): ScanState
    decreases |s|
  {
    if s == [] then q else Scan(Step(q, s[0]), s[1..])
  }

  predicate Recognises(s: string) {
    Scan(Start, s) == Port
  }

  /** The check the script makes before touching anything. */
  predicate NameMatches(s: string) {
    Recognises(s) || (|s| > 0 && s[|s| - 1] == '\n' && Recognises(s[..|s| - 1]))
  }

  lemma {:induction false} ScanDead(s: string)
    ensures Scan(Dead, s) == Dead
    decreases |s|
  {
    if s != [] {
      ScanDead(s[1..]);
    }
  }

  lemma TailCharShift(c: char, u: string, i: nat)
    requires 0 < i <= |u|
    ensures TailCharOk([c] + u, i) == TailCharOk(u, i - 1)
  {
    var t := [c] + u;
    assert t[i] == u[i - 1];
    if i < |u| {
      assert t[i + 1] == u[i];
    }
  }

  lemma DottedTailDigit(c: char, u: string)
    requires IsDigit(c)
    ensures DottedTail([c] + u) <==> DottedTail(u)
  {
    var t := [c] + u;
    assert TailCharOk(t, 0);
    forall i | 0 < i < |t| ensures TailCharOk(t, i) == TailCharOk(u, i - 1) {
      TailCharShift(c, u, i);
    }
    if DottedTail(t) {
      forall j | 0 <= j < |u| ensures TailCharOk(u, j) {
        assert TailCharOk(t, j + 1);
      }
    }
  }

  lemma DottedTailDot(u: string)
    ensures DottedTail(['.'] + u) <==> PortPath(u)
  {
    var t := ['.'] + u;
    assert TailCharOk(t, 0) <==> |u| > 0 && IsDigit(u[0]);
    forall i | 0 < i < |t| ensures TailCharOk(t, i) == TailCharOk(u, i - 1) {
      TailCharShift('.', u, i);
    }
    if DottedTail(t) {
      forall j | 0 <= j < |u| ensures TailCharOk(u, j) {
        assert TailCharOk(t, j + 1);
      }
    }
  }

  lemma DottedTailChars(t: string)
    requires DottedTail(t)
    ensures forall i :: 0 <= i < |t| ==> IsDigit(t[i]) || t[i] == '.'
  {
    forall i | 0 <= i < |t| ensures IsDigit(t[i]) || t[i] == '.' {
      assert TailCharOk(t, i);
    }
  }

  /** From inside a port number the scanner accepts exactly the dotted tails. */
  lemma {:induction false} ScanPort(t: string)
    ensures Scan(Port, t) == Port <==> DottedTail(t)
    decreases |t|, 1
  {
    if t != [] {
      assert t == [t[0]] + t[1..];
      if IsDigit(t[0]) {
        ScanPort(t[1..]);
        DottedTailDigit(t[0], t[1..]);
      } else if t[0] == '.' {
        ScanNeedDigit(t[1..]);
        DottedTailDot(t[1..]);
      } else {
        ScanDead(t[1..]);
        assert !TailCharOk(t, 0);
      }
    }
  }

  /** After a dash or a dot the scanner accepts exactly the port paths. */
  lemma {:induction false} ScanNeedDigit(t: string)
    ensures Scan(NeedDigit, t) == Port <==> PortPath(t)
    decreases |t|, 2
  {
    if t != [] {
      assert t == [t[0]] + t[1..];
      if IsDigit(t[0]) {
        ScanPort(t[1..]);
        DottedTailDigit(t[0], t[1..]);
      } else {
        ScanDead(t[1..]);
      }
    }
  }

  /** `\d*-\d+(\.\d+)*`: what the scanner accepts once it has seen the first bus digit. */
  predicate BusRest(s: string) {
    exists i :: 0 <= i < |s| && s[i] == '-' && IsDigits(s[..i]) && PortPath(s[i + 1..])
  }

  lemma {:induction false} ScanBus(s: string)
    ensures Scan(Bus, s) == Port <==> BusRest(s)
    decreases |s|
  {
    if s != [] {
      var u := s[1..];
      if IsDigit(s[0]) {
        ScanBus(u);
        BusRestDigit(s);
      } else if s[0] == '-' {
        ScanNeedDigit(u);
        BusRestDash(s);
      } else {
        ScanDead(u);
        NoBusDigits(s);
      }
    }
  }

  /** A further bus digit leaves the rest of the grammar as it was. */
  lemma BusRestDigit(s: string)
    requires |s| > 0 && IsDigit(s[0])
    ensures BusRest(s) <==> BusRest(s[1..])
  {
    if BusRest(s[1..]) {
      BusRestPrepend(s);
    }
    if BusRest(s) {
      BusRestDrop(s);
    }
  }

  lemma BusRestPrepend(s: string)
    requires |s| > 0 && IsDigit(s[0]) && BusRest(s[1..])
    ensures BusRest(s)
  {
    var u := s[1..];
    var i :| 0 <= i < |u| && u[i] == '-' && IsDigits(u[..i]) && PortPath(u[i + 1..]);
    assert s[i + 2..] == u[i + 1..];
    var bus := s[..i + 1];
    forall j | 0 <= j < |bus| ensures IsDigit(bus[j]) {
      if j > 0 {
        assert bus[j] == u[..i][j - 1];
      }
    }
    assert s[i + 1] == '-';
  }

  lemma BusRestDrop(s: string)
    requires |s| > 0 && IsDigit(s[0]) && BusRest(s)
    ensures BusRest(s[1..])
  {
    var u := s[1..];
    var i :| 0 <= i < |s| && s[i] == '-' && IsDigits(s[..i]) && PortPath(s[i + 1..]);
    assert i > 0;
    assert u[..i - 1] == s[1..i];
    assert u[i..] == s[i + 1..];
    assert u[i - 1] == '-';
  }

  /** After the dash only the port path is left. */
  lemma BusRestDash(s: string)
    requires |s| > 0 && s[0] == '-'
    ensures BusRest(s) <==> PortPath(s[1..])
  {
    assert s[..0] == [];
    NoBusDigits(s);
  }

  /** A string that does not start with a digit has no non-empty digit prefix. */
  lemma NoBusDigits(s: string)
    requires |s| > 0 && !IsDigit(s[0])
    ensures forall i :: 0 < i <= |s| ==> !IsDigits(s[..i])
  {
    forall i | 0 < i <= |s| ensures !IsDigits(s[..i]) {
      assert s[..i][0] == s[0];
    }
  }

  /** The grammar read one character at a time: a first bus digit, then the rest. */
  lemma DeviceNameFirstDigit(s: string)
    requires |s| > 0 && IsDigit(s[0])
    ensures DeviceName(s) <==> BusRest(s[1..])
  {
    if BusRest(s[1..]) {
      BusRestGivesName(s);
    }
    if DeviceName(s) {
      NameGivesBusRest(s);
    }
  }

  lemma BusRestGivesName(s: string)
    requires |s| > 0 && IsDigit(s[0]) && BusRest(s[1..])
    ensures DeviceName(s)
  {
    var u := s[1..];
    var i :| 0 <= i < |u| && u[i] == '-' && IsDigits(u[..i]) && PortPath(u[i + 1..]);
    assert s[..i + 1] == [s[0]] + u[..i];
    assert s[i + 2..] == u[i + 1..];
    assert s[i + 1] == '-';
    assert 0 < i + 1 < |s| && s[i + 1] == '-' && IsDigits(s[..i + 1]) && PortPath(s[i + 2..]);
  }

  lemma NameGivesBusRest(s: string)
    requires |s| > 0 && DeviceName(s)
    ensures BusRest(s[1..])
  {
    var u := s[1..];
    var i :| 0 < i < |s| && s[i] == '-' && IsDigits(s[..i]) && PortPath(s[i + 1..]);
    assert u[..i - 1] == s[1..i];
    assert u[i..] == s[i + 1..];
    assert u[i - 1] == '-';
    assert 0 <= i - 1 < |u| && u[i - 1] == '-' && IsDigits(u[..i - 1]) && PortPath(u[i..]);
  }

  /** The scanner recognises exactly the strings of the grammar. */
  lemma RecognisesDeviceName(s: string)
    ensures Recognises(s) <==> DeviceName(s)
  {
    if s != [] {
      if IsDigit(s[0]) {
        ScanBus(s[1..]);
        DeviceNameFirstDigit(s);
      } else {
        ScanDead(s[1..]);
        NoBusDigits(s);
      }
    }
  }

  /** The script's check accepts exactly what the anchored pattern matches. */
  lemma NameMatchesPattern(s: string)
    ensures NameMatches(s) <==> MatchesPattern(s)
  {
    RecognisesDeviceName(s);
    if |s| > 0 {
      RecognisesDeviceName(s[..|s| - 1]);
    }
  }

  lemma DeviceNameAlphabet(s: string)
    requires DeviceName(s)
    ensures forall k :: 0 <= k < |s| ==> IsDigit(s[k]) || s[k] == '-' || s[k] == '.'
  {
    var i :| 0 < i < |s| && s[i] == '-' && IsDigits(s[..i]) && PortPath(s[i + 1..]);
    var t := s[i + 1..];
    forall k | 0 <= k < |s|
      ensures IsDigit(s[k]) || s[k] == '-' || s[k] == '.'
    {
      if k < i {
        assert s[k] == s[..i][k];
      } else if k > i {
        DottedTailChars(t);
        assert s[k] == t[k - i - 1];
      }
    }
  }

  /**
   * An accepted name holds only digits, dashes and dots, apart from one
   * optional final newline: in particular no `/`, so the bus-file paths built
   * from it stay inside the USB devices directory.
   */
  lemma AcceptedNameAlphabet(s: string)
    requires NameMatches(s)
    ensures forall k :: 0 <= k < |s| ==>
      IsDigit(s[k]) || s[k] == '-' || s[k] == '.' || (k == |s| - 1 && s[k] == '\n')
    ensures '/' !in s
  {
    NameMatchesPattern(s);
    if DeviceName(s) {
      DeviceNameAlphabet(s);
    } else {
      var p := s[..|s| - 1];
      DeviceNameAlphabet(p);
      assert forall k :: 0 <= k < |p| ==> s[k] == p[k];
    }
  }

  lemma {:induction false} ExampleNames()
    ensures NameMatches("2-2") && NameMatches("1-1.4.2") && NameMatches("2-2\n")
    ensures !NameMatches("2-") && !NameMatches("-2") && !NameMatches("2-2.")
    ensures !NameMatches("2-2..1") && !NameMatches("a-1") && !NameMatches("2-2/..")
  {
    assert "2-2\n"[..3] == "2-2";
  }
}
