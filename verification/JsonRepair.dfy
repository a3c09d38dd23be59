/** The repair of raw control characters inside JSON strings, and the extraction of the object
    from a model's reply: internal/brain/agentcore.go. */
module JsonRepair {
  import opened Text

  /** Where the scanner stands: inside a string literal or not, and right after a backslash or not. */
  datatype Mode = Mode(inString: bool, escaped: bool)

  const START := Mode(false, false)

  function Step(m: Mode, c: char): Mode {
    if m.escaped then m.(escaped := false)
    else if c == '\\' && m.inString then m.(escaped := true)
    else if c == '"' then m.(inString := !m.inString)
    else m
  }

  predicate IsRaw(c: char) { c == '\n' || c == '\r' || c == '\t' }

  predicate Unescaped(m: Mode) { m.inString && !m.escaped }

  function Emit(m: Mode, c: char): string {
    if Unescaped(m) && c == '\n' then "\\n"
    else if Unescaped(m) && c == '\r' then "\\r"
    else if Unescaped(m) && c == '\t' then "\\t"
    else [c]
  }

  function Scan(m: Mode, s: string): Mode
    decreases |s|
  {
    if s == [] then m else Scan(Step(m, s[0]), s[1..])
  }

  function Repair(m: Mode, s: string): string
    decreases |s|
  {
    if s == [] then [] else Emit(m, s[0]) + Repair(Step(m, s[0]), s[1..])
  }

  // ---------------------------------------------------------------- the loop

  lemma {:induction false} RepairSnoc(m: Mode, s: string, c: char)
    ensures Scan(m, s + [c]) == Step(Scan(m, s), c)
    ensures Repair(m, s + [c]) == Repair(m, s) + Emit(Scan(m, s), c)
    decreases |s|
  {
    if s == [] {
      assert s + [c] == [c];
    } else {
      assert (s + [c])[1..] == s[1..] + [c];
      RepairSnoc(Step(m, s[0]), s[1..], c);
      assert Emit(m, s[0]) + (Repair(Step(m, s[0]), s[1..]) + Emit(Scan(m, s), c))
          == Emit(m, s[0]) + Repair(Step(m, s[0]), s[1..]) + Emit(Scan(m, s), c);
    }
  }

  method EscapeRawControls(s: string) returns (b: string)
    ensures b == Repair(START, s)
  {
    b := "";
    var inString, escaped := false, false;
    for i := 0 to |s|
      invariant b == Repair(START, s[..i])
      invariant Mode(inString, escaped) == Scan(START, s[..i])
    {
      var r := s[i];
      assert s[..i + 1] == s[..i] + [r];
      RepairSnoc(START, s[..i], r);
      if inString && !escaped {
        if r == '\n' { b := b + "\\n"; continue; }
        if r == '\r' { b := b + "\\r"; continue; }
        if r == '\t' { b := b + "\\t"; continue; }
      }
      if escaped {
        escaped := false;
      } else if r == '\\' && inString {
        escaped := true;
      } else if r == '"' {
        inString := !inString;
      }
      b := b + [r];
    }
    assert s[..|s|] == s;
  }

  // ---------------------------------------------------------------- clean output, same final state

  /** No raw newline, carriage return or tab stands at an unescaped position inside a string. */
  ghost predicate Clean(m: Mode, s: string)
    decreases |s|
  {
    s == [] || (!(Unescaped(m) && IsRaw(s[0])) && Clean(Step(m, s[0]), s[1..]))
  }

  /** What one character becomes is scanned back to where the character itself leads. */
  lemma EmitScans(m: Mode, c: char, rest: string)
    ensures Scan(m, Emit(m, c) + rest) == Scan(Step(m, c), rest)
    ensures Clean(m, Emit(m, c) + rest) <==> Clean(Step(m, c), rest)
  {
  }

  lemma {:induction false} RepairIsClean(m: Mode, s: string)
    ensures Scan(m, Repair(m, s)) == Scan(m, s)
    ensures Clean(m, Repair(m, s))
    decreases |s|
  {
    if s != [] {
      RepairIsClean(Step(m, s[0]), s[1..]);
      EmitScans(m, s[0], Repair(Step(m, s[0]), s[1..]));
    }
  }

  lemma {:induction false} CleanIsUntouched(m: Mode, s: string)
    requires Clean(m, s)
    ensures Repair(m, s) == s
    decreases |s|
  {
    if s != [] {
      CleanIsUntouched(Step(m, s[0]), s[1..]);
      assert s == [s[0]] + s[1..];
    }
  }

  lemma RepairIsIdempotent(m: Mode, s: string)
    ensures Repair(m, Repair(m, s)) == Repair(m, s)
  {
    RepairIsClean(m, s);
    CleanIsUntouched(m, Repair(m, s));
  }

  // ---------------------------------------------------------------- meaning

  /** A piece of a JSON text: a character outside strings, or a string literal's decoded value,
      one code for each character or \u escape (a surrogate pair stays two). */
  datatype Token = Mark(c: char) | Literal(codes: seq<int>)

  function HexDigit(c: char): Option<nat> {
    if '0' <= c <= '9' then Some(c as int - '0' as int)
    else if 'a' <= c <= 'f' then Some(c as int - 'a' as int + 10)
    else if 'A' <= c <= 'F' then Some(c as int - 'A' as int + 10)
    else None
  }

  function Hex(n: nat, s: string): Option<nat> {
    if n == 0 then Some(0)
    else if s == [] || HexDigit(s[0]) == None then None
    else
      var rest := Hex(n - 1, s[1..]);
      if rest == None then None else Some(HexDigit(s[0]).value * Pow16(n - 1) + rest.value)
  }

  function Pow16(n: nat): nat { if n == 0 then 1 else 16 * Pow16(n - 1) }

  /** The two-character escapes of section 7 of RFC 8259. */
  function ShortEscape(c: char): Option<int> {
    if c == '"' || c == '\\' || c == '/' then Some(c as int)
    else if c == 'b' then Some(8)
    else if c == 'f' then Some(12)
    else if c == 'n' then Some(10)
    else if c == 'r' then Some(13)
    else if c == 't' then Some(9)
    else None
  }

  /** Reading from outside a string, or inside one with `acc` read so far; None when a literal is
      malformed. A lenient reading takes the three raw controls as themselves; a strict one, like
      the standard, takes no raw control. */
  function Decode(lenient: bool, inString: bool, acc: seq<int>, s: string): Option<seq<Token>>
    decreases |s|
  {
    if s == [] then (if inString then None else Some([]))
    else if !inString then
      if s[0] == '"' then Decode(lenient, true, [], s[1..])
      else Then(Mark(s[0]), Decode(lenient, false, [], s[1..]))
    else if s[0] == '"' then Then(Literal(acc), Decode(lenient, false, [], s[1..]))
    else if s[0] == '\\' then
      if |s| < 2 then None
      else if s[1] == 'u' then
        (if Hex(4, s[2..]) == None || |s| < 6 then None
         else Decode(lenient, true, acc + [Hex(4, s[2..]).value], s[6..]))
      else if ShortEscape(s[1]) == None then None
      else Decode(lenient, true, acc + [ShortEscape(s[1]).value], s[2..])
    else if s[0] < ' ' && !(lenient && IsRaw(s[0])) then None
    else Decode(lenient, true, acc + [s[0] as int], s[1..])
  }

  function Then(t: Token, rest: Option<seq<Token>>): Option<seq<Token>> {
    if rest == None then None else Some([t] + rest.value)
  }

  // ---- what reading means: section 7 of RFC 8259, spelling by spelling

  const LOWER_HEX := "0123456789abcdef"
  const UPPER_HEX := "0123456789ABCDEF"

  /** The character is the hexadecimal digit `d`, in either case. */
  ghost predicate IsHex(c: char, d: int) { 0 <= d < 16 && (LOWER_HEX[d] == c || UPPER_HEX[d] == c) }

  /** Four hexadecimal digits, the first counting most. */
  ghost predicate FourHex(w: string, code: int) {
    && |w| == 4
    && exists a, b, c, d :: IsHex(w[0], a) && IsHex(w[1], b) && IsHex(w[2], c) && IsHex(w[3], d)
                            && code == 4096 * a + 256 * b + 16 * c + d
  }

  /** The text is one of the ways to write the code inside a string: the character itself, unless it is a quote, a
      backslash or a control; a backslash and a letter; or \u and four hexadecimal digits. */
  ghost predicate Spells(lenient: bool, w: string, code: int) {
    || (|w| == 1 && code == w[0] as int && w[0] != '\"' && w[0] != '\\'
        && (w[0] >= ' ' || (lenient && w[0] in "\n\r\t")))
    || (w == "\\\"" && code == 34) || (w == "\\\\" && code == 92) || (w == "\\/" && code == 47)
    || (w == "\\b" && code == 8) || (w == "\\f" && code == 12) || (w == "\\n" && code == 10)
    || (w == "\\r" && code == 13) || (w == "\\t" && code == 9)
    || (|w| == 6 && w[0] == '\\' && w[1] == 'u' && FourHex(w[2..], code))
  }

  lemma HexDigitIs(c: char, d: int)
    ensures IsHex(c, d) <==> d >= 0 && HexDigit(c) == Some(d)
  {
    if '0' <= c <= '9' { assert LOWER_HEX[c as int - '0' as int] == c; }
    if 'a' <= c <= 'f' { assert LOWER_HEX[c as int - 'a' as int + 10] == c; }
    if 'A' <= c <= 'F' { assert UPPER_HEX[c as int - 'A' as int + 10] == c; }
  }

  lemma HexFour(s: string)
    requires |s| >= 4
    ensures Hex(4, s).Some? <==> HexDigit(s[0]).Some? && HexDigit(s[1]).Some? && HexDigit(s[2]).Some?
                                 && HexDigit(s[3]).Some?
    ensures Hex(4, s).Some? ==>
              Hex(4, s).value == 4096 * HexDigit(s[0]).value + 256 * HexDigit(s[1]).value + 16 * HexDigit(s[2]).value
                                 + HexDigit(s[3]).value
  {
    hide HexDigit;
    assert s[1..][1..] == s[2..] && s[2..][1..] == s[3..] && s[3..][1..] == s[4..];
    assert Hex(1, s[3..]) == if HexDigit(s[3]).Some? then HexDigit(s[3]) else None;
    assert Pow16(1) == 16 && Pow16(2) == 256 && Pow16(3) == 4096;
    assert Hex(2, s[2..]).Some? <==> HexDigit(s[2]).Some? && HexDigit(s[3]).Some?;
    assert Hex(3, s[1..]).Some? <==> HexDigit(s[1]).Some? && Hex(2, s[2..]).Some?;
  }

  lemma FourHexIs(w: string, code: int)
    requires |w| == 4
    ensures FourHex(w, code) <==> code >= 0 && Hex(4, w) == Some(code)
  {
    hide Hex, FourHex;
    if FourHex(w, code) { FourIsHex(w, code); }
    if Hex(4, w) == Some(code) { HexIsFour(w); }
  }

  lemma FourIsHex(w: string, code: int)
    requires FourHex(w, code)
    ensures code >= 0 && Hex(4, w) == Some(code)
  {
    hide HexDigit, Hex, IsHex;
    HexFour(w);
    var a, b, c, d :| IsHex(w[0], a) && IsHex(w[1], b) && IsHex(w[2], c) && IsHex(w[3], d)
                      && code == 4096 * a + 256 * b + 16 * c + d;
    DigitsAre(w, a, b, c, d);
  }

  lemma HexIsFour(w: string)
    requires |w| == 4 && Hex(4, w).Some?
    ensures FourHex(w, Hex(4, w).value)
  {
    hide HexDigit, Hex, IsHex;
    HexFour(w);
    DigitsAre(w, HexDigit(w[0]).value, HexDigit(w[1]).value, HexDigit(w[2]).value, HexDigit(w[3]).value);
  }

  lemma DigitsAre(w: string, a: int, b: int, c: int, d: int)
    requires |w| == 4
    ensures IsHex(w[0], a) && IsHex(w[1], b) && IsHex(w[2], c) && IsHex(w[3], d) <==>
              a >= 0 && b >= 0 && c >= 0 && d >= 0 && HexDigit(w[0]) == Some(a) && HexDigit(w[1]) == Some(b)
                && HexDigit(w[2]) == Some(c) && HexDigit(w[3]) == Some(d)
  {
    hide IsHex, HexDigit;
    HexDigitIs(w[0], a);
    HexDigitIs(w[1], b);
    HexDigitIs(w[2], c);
    HexDigitIs(w[3], d);
  }

  /** Only the first four characters matter. */
  lemma HexPrefix(s: string, t: string)
    requires |s| >= 4 && |t| >= 4 && s[..4] == t[..4]
    ensures Hex(4, s) == Hex(4, t)
  {
    HexFour(s);
    HexFour(t);
    hide Hex;
    assert s[0] == s[..4][0] && s[1] == s[..4][1] && s[2] == s[..4][2] && s[3] == s[..4][3];
  }

  /** Inside a string every spelling reads as its code. */
  lemma SpelledIsRead(lenient: bool, acc: seq<int>, w: string, code: int, rest: string)
    requires Spells(lenient, w, code)
    ensures Decode(lenient, true, acc, w + rest) == Decode(lenient, true, acc + [code], rest)
  {
    var s := w + rest;
    if |w| == 6 {
      hide Hex, FourHex;
      FourHexIs(w[2..], code);
      HexPrefix(w[2..], s[2..]);
      assert s[0] == '\\' && s[1] == 'u' && s[6..] == rest;
    } else if |w| == 2 {
      hide Hex;
      assert s[0] == '\\' && s[1] == w[1] && s[2..] == rest && ShortEscape(w[1]) == Some(code);
      hide Spells;
    } else {
      hide Hex;
      assert s[0] == w[0] && s[1..] == rest;
    }
  }

  /** And nothing else is read: what reads on is the closing quote or such a spelling. */
  lemma ReadIsSpelled(lenient: bool, acc: seq<int>, s: string) returns (w: string, code: int)
    requires Decode(lenient, true, acc, s).Some? && s[0] != '\"'
    ensures |w| <= |s| && s == w + s[|w|..] && Spells(lenient, w, code)
  {
    if s[0] != '\\' {
      w, code := s[..1], s[0] as int;
    } else if s[1] == 'u' {
      hide Hex, FourHex;
      w, code := s[..6], Hex(4, s[2..]).value;
      HexPrefix(w[2..], s[2..]);
      FourHexIs(w[2..], code);
      assert w[0] == '\\' && w[1] == 'u';
    } else {
      hide Hex;
      w, code := s[..2], ShortEscape(s[1]).value;
      hide Decode;
      assert w == ['\\', s[1]];
    }
  }

  /** The spellings one after the other. */
  function Spelled(ws: seq<string>): string { if ws == [] then "" else ws[0] + Spelled(ws[1..]) }

  lemma {:induction false} LiteralIsRead(lenient: bool, acc: seq<int>, ws: seq<string>, codes: seq<int>, rest: string)
    requires |ws| == |codes| && forall i | 0 <= i < |ws| :: Spells(lenient, ws[i], codes[i])
    ensures Decode(lenient, true, acc, Spelled(ws) + "\"" + rest)
            == Then(Literal(acc + codes), Decode(lenient, false, [], rest))
    decreases |ws|
  {
    hide Spells, Decode;
    if ws == [] {
      Closes(lenient, acc, rest);
      assert Spelled(ws) + "\"" + rest == "\"" + rest && acc + codes == acc;
    } else {
      SpelledIsRead(lenient, acc, ws[0], codes[0], Spelled(ws[1..]) + "\"" + rest);
      assert Spelled(ws) + "\"" + rest == ws[0] + (Spelled(ws[1..]) + "\"" + rest);
      LiteralIsRead(lenient, acc + [codes[0]], ws[1..], codes[1..], rest);
      assert acc + [codes[0]] + codes[1..] == acc + codes;
    }
  }

  lemma Closes(lenient: bool, acc: seq<int>, rest: string)
    ensures Decode(lenient, true, acc, "\"" + rest) == Then(Literal(acc), Decode(lenient, false, [], rest))
  {
    hide Hex;
    assert ("\"" + rest)[1..] == rest;
  }

  /** So a text reads as its marks and, between quotes, the codes its spellings write; a quote left open does not. */
  lemma TextIsRead(lenient: bool, ws: seq<string>, codes: seq<int>, c: char, rest: string)
    requires |ws| == |codes| && forall i | 0 <= i < |ws| :: Spells(lenient, ws[i], codes[i])
    ensures Decode(lenient, false, [], "") == Some([]) && Decode(lenient, true, codes, "") == None
    ensures var more := Decode(lenient, false, [], rest);
            && (c != '\"' ==> Decode(lenient, false, [], [c] + rest)
                              == if more == None then None else Some([Mark(c)] + more.value))
            && Decode(lenient, false, [], "\"" + (Spelled(ws) + "\"" + rest))
               == if more == None then None else Some([Literal(codes)] + more.value)
  {
    hide Spells, Hex, Spelled;
    LiteralIsRead(lenient, [], ws, codes, rest);
    Outside(lenient, c, rest);
    Outside(lenient, '\"', Spelled(ws) + "\"" + rest);
    hide Decode;
    assert [] + codes == codes;
  }

  lemma Outside(lenient: bool, c: char, rest: string)
    ensures Decode(lenient, false, [], [c] + rest)
            == if c == '\"' then Decode(lenient, true, [], rest) else Then(Mark(c), Decode(lenient, false, [], rest))
    ensures Decode(lenient, false, [], "") == Some([]) && forall acc :: Decode(lenient, true, acc, "") == None
  {
    hide Hex;
    assert ([c] + rest)[1..] == rest;
  }

  const OPEN := Mode(true, false)

  lemma {:induction false} HexUntouched(n: nat, s: string)
    ensures Hex(n, Repair(OPEN, s)) == Hex(n, s)
    ensures Hex(n, s).Some? ==> |s| >= n && Repair(OPEN, s) == s[..n] + Repair(OPEN, s[n..])
  {
    hide Repair, HexDigit, Emit, Pow16;
    RepairHead(s);
    if n > 0 && s != [] {
      var out := Repair(OPEN, s);
      if HexDigit(s[0]).Some? {
        HexUntouched(n - 1, s[1..]);
        assert out[1..] == Repair(OPEN, s[1..]);
        if Hex(n, s).Some? {
          assert s[1..][..n - 1] == s[1..n] && s[1..][n - 1..] == s[n..];
          assert s[..n] == [s[0]] + s[1..n];
        }
      }
    } else {
      assert s[..0] == [] && s[0..] == s;
    }
  }

  /** A digit is left as it is, and nothing else becomes one. */
  lemma RepairHead(s: string)
    ensures s == [] <==> Repair(OPEN, s) == []
    ensures s != [] && HexDigit(s[0]).Some? ==> Repair(OPEN, s) == [s[0]] + Repair(OPEN, s[1..])
    ensures s != [] && HexDigit(s[0]) == None ==> Repair(OPEN, s) != [] && HexDigit(Repair(OPEN, s)[0]) == None
  {
    if s != [] { assert Repair(OPEN, s)[0] == Emit(OPEN, s[0])[0]; }
  }

  /** Read leniently or strictly, the repaired text decodes to what the input decodes to with its raw
      controls read as themselves: each literal to the same value, the text outside literals as it
      was, and what was malformed still malformed. */
  lemma {:induction false} RepairPreservesMeaning(l: bool, inString: bool, acc: seq<int>, s: string)
    ensures Decode(l, inString, acc, Repair(Mode(inString, false), s)) == Decode(true, inString, acc, s)
    decreases |s|
  {
    if s != [] {
      var m := Mode(inString, false);
      if !inString {
        assert Repair(m, s)[1..] == Repair(Step(m, s[0]), s[1..]);
        RepairPreservesMeaning(l, s[0] == '"', [], s[1..]);
      } else if s[0] == '\\' {
        EscapePreserved(l, acc, s);
      } else if IsRaw(s[0]) {
        RawPreserved(l, acc, s);
      } else {
        assert Repair(m, s)[1..] == Repair(Step(m, s[0]), s[1..]);
        RepairPreservesMeaning(l, s[0] != '"', if s[0] == '"' then [] else acc + [s[0] as int], s[1..]);
      }
    }
  }

  /** A raw control becomes the escape that decodes to it. */
  lemma RawPreserved(l: bool, acc: seq<int>, s: string)
    requires s != [] && IsRaw(s[0])
    ensures Decode(l, true, acc, Repair(OPEN, s)) == Decode(true, true, acc, s)
    decreases |s|, 0
  {
    var out := Repair(OPEN, s);
    assert out == Emit(OPEN, s[0]) + Repair(OPEN, s[1..]);
    assert out[2..] == Repair(OPEN, s[1..]);
    assert ShortEscape(out[1]) == Some(s[0] as int);
    RepairPreservesMeaning(l, true, acc + [s[0] as int], s[1..]);
  }

  lemma EscapePreserved(l: bool, acc: seq<int>, s: string)
    requires s != [] && s[0] == '\\'
    ensures Decode(l, true, acc, Repair(OPEN, s)) == Decode(true, true, acc, s)
    decreases |s|, 0
  {
    var out := Repair(OPEN, s);
    if |s| > 1 {
      assert out == [s[0]] + Repair(Mode(true, true), s[1..]);
      assert Repair(Mode(true, true), s[1..]) == [s[1]] + Repair(OPEN, s[1..][1..]);
      assert s[1..][1..] == s[2..];
      assert out[0] == s[0] && out[1] == s[1] && out[2..] == Repair(OPEN, s[2..]);
      if s[1] == 'u' {
        HexUntouched(4, s[2..]);
        if Hex(4, s[2..]).Some? {
          assert s[2..][4..] == s[6..] && out[6..] == Repair(OPEN, s[6..]);
          RepairPreservesMeaning(l, true, acc + [Hex(4, s[2..]).value], s[6..]);
        }
      } else if ShortEscape(s[1]).Some? {
        RepairPreservesMeaning(l, true, acc + [ShortEscape(s[1]).value], s[2..]);
      }
    }
  }

  lemma {:induction false} HexIsClean(n: nat, s: string)
    requires Hex(n, s).Some? && n <= |s|
    ensures Clean(OPEN, s) <==> Clean(OPEN, s[n..])
  {
    if n > 0 {
      HexIsClean(n - 1, s[1..]);
      assert s[1..][n - 1..] == s[n..];
    }
  }

  lemma {:induction false} StrictIsClean(inString: bool, acc: seq<int>, s: string)
    requires Decode(false, inString, acc, s).Some?
    ensures Clean(Mode(inString, false), s)
    decreases |s|
  {
    if s != [] {
      if !inString {
        StrictIsClean(s[0] == '"', [], s[1..]);
      } else if s[0] == '\\' {
        assert Clean(OPEN, s) <==> Clean(OPEN, s[1..][1..]);
        assert s[1..][1..] == s[2..];
        if s[1] == 'u' {
          HexIsClean(4, s[2..]);
          assert s[2..][4..] == s[6..];
          StrictIsClean(true, acc + [Hex(4, s[2..]).value], s[6..]);
        } else {
          StrictIsClean(true, acc + [ShortEscape(s[1]).value], s[2..]);
        }
      } else {
        StrictIsClean(s[0] != '"', if s[0] == '"' then [] else acc + [s[0] as int], s[1..]);
      }
    }
  }

  /** Text whose literals are already well formed is not touched. */
  lemma ValidIsUntouched(s: string)
    requires Decode(false, false, [], s).Some?
    ensures Repair(START, s) == s
  {
    StrictIsClean(false, [], s);
    CleanIsUntouched(START, s);
  }

  // ---------------------------------------------------------------- extraction

  /** From the first brace to the last, when they are in that order; the text itself otherwise. */
  function Braced(s: string): string {
    var i, j := Index(s, '{'), LastIndex(s, '}');
    if i >= 0 && j >= i then s[i..j + 1] else s
  }

  function ExtractJson(s: string): string {
    Repair(START, Braced(Trim(s)))
  }

  lemma IndexAt(s: string, c: char, i: nat)
    requires i < |s| && s[i] == c && forall k | 0 <= k < i :: s[k] != c
    ensures Index(s, c) == i
  {
    hide Index;
  }

  lemma LastIndexAt(s: string, c: char, j: nat)
    requires j < |s| && s[j] == c && forall k | j < k < |s| :: s[k] != c
    ensures LastIndex(s, c) == j
  {
    hide LastIndex;
  }

  /** A closing brace stands after an opening one. */
  predicate Enclosing(s: string) {
    s != [] && (('}' in s[1..] && s[0] == '{') || Enclosing(s[1..]))
  }

  lemma {:induction false} EnclosingMeans(s: string)
    ensures Enclosing(s) <==> Index(s, '{') >= 0 && LastIndex(s, '}') >= Index(s, '{')
  {
    if s != [] {
      EnclosingMeans(s[1..]);
      TailLast(s);
    }
  }

  lemma TailLast(s: string)
    requires s != []
    ensures LastIndex(s[1..], '}') >= 0 ==> LastIndex(s, '}') == LastIndex(s[1..], '}') + 1
    ensures LastIndex(s[1..], '}') < 0 ==> LastIndex(s, '}') == if s[0] == '}' then 0 else -1
  {
  }

  lemma {:induction false} RepairKeepsBraces(m: Mode, s: string)
    ensures '}' in Repair(m, s) <==> '}' in s
    ensures Enclosing(Repair(m, s)) <==> Enclosing(s)
    decreases |s|
  {
    if s == [] {
      assert Repair(m, s) == s;
    } else {
      var rest := Repair(Step(m, s[0]), s[1..]);
      RepairKeepsBraces(Step(m, s[0]), s[1..]);
      assert Repair(m, s) == Emit(m, s[0]) + rest;
      assert s == [s[0]] + s[1..];
      hide Repair, Enclosing;
      BracesUnder(m, s[0], rest);
      BracesUnder(START, s[0], s[1..]);
    }
  }

  /** One character in front, as it is or as its escape, adds its own brace and no other. */
  lemma BracesUnder(m: Mode, c: char, rest: string)
    ensures var s := Emit(m, c) + rest;
            && ('}' in s <==> c == '}' || '}' in rest)
            && (Enclosing(s) <==> (c == '{' && '}' in rest) || Enclosing(rest))
  {
  }

  lemma {:induction false} RepairEnds(m: Mode, s: string)
    requires s != []
    ensures Repair(m, s) != []
    ensures !IsRaw(s[0]) || !Unescaped(m) ==> Repair(m, s)[0] == s[0]
    ensures !IsRaw(s[|s| - 1]) ==> Repair(m, s)[|Repair(m, s)| - 1] == s[|s| - 1]
    decreases |s|
  {
    if |s| > 1 {
      RepairEnds(Step(m, s[0]), s[1..]);
    }
  }

  lemma RepairStaysTrimmed(s: string)
    requires Trimmed(s)
    ensures Trim(Repair(START, s)) == Repair(START, s)
  {
    if s != [] {
      RepairEnds(START, s);
    }
    TrimmedStays(Repair(START, s));
  }

  lemma BracesAreNoSpace()
    ensures !IsSpace('{') && !IsSpace('}')
  {
  }

  lemma BracedTwice(s: string)
    ensures Trimmed(s) ==> Trimmed(Braced(s))
    ensures Enclosing(s) ==> Braced(s) != [] && Braced(s)[0] == '{' && Braced(s)[|Braced(s)| - 1] == '}'
    ensures !Enclosing(s) ==> Braced(s) == s
  {
    hide Enclosing, Index, LastIndex, IsSpace;
    BracesAreNoSpace();
    EnclosingMeans(s);
  }

  lemma BracedEnds(s: string)
    requires s != [] && s[0] == '{' && s[|s| - 1] == '}'
    ensures Braced(s) == s
  {
  }

  /** Extracting from what was extracted changes nothing. */
  lemma ExtractIsIdempotent(s: string)
    ensures ExtractJson(ExtractJson(s)) == ExtractJson(s)
  {
    var a, b := TrimCuts(s);
    var t := Trim(s);
    var u := Braced(t);
    BracedTwice(t);
    RepairStaysTrimmed(u);
    var out := Repair(START, u);
    if Enclosing(t) {
      RepairEnds(START, u);
      BracedEnds(out);
    } else {
      RepairKeepsBraces(START, u);
      BracedTwice(out);
    }
    RepairIsIdempotent(START, u);
  }

  /** Trimming cuts only into what stands around a text with no space at its ends. */
  lemma TrimKeepsMiddle(a: string, o: string, b: string) returns (p: string, q: string)
    requires o != [] && !IsSpace(o[0]) && !IsSpace(o[|o| - 1])
    ensures Trim(a + o + b) == p + o + q
    ensures (forall c | c in p :: c in a) && (forall c | c in q :: c in b)
  {
    var s, t := a + o + b, Trim(a + o + b);
    var x, y := TrimCuts(s);
    hide Trim, IsSpace;
    assert s[|a|] == o[0] && s[|a| + |o| - 1] == o[|o| - 1];
    assert forall k | 0 <= k < |x| :: s[k] == x[k];
    assert forall k | |x| + |t| <= k < |s| :: s[k] == y[k - |x| - |t|];
    assert |x| <= |a| && |a| + |o| <= |x| + |t|;
    p, q := a[|x|..], b[..|x| + |t| - |a| - |o|];
    assert s[|x|..|x| + |t|] == t;
    Middle(a, o, b, |x|, |t|);
  }

  lemma Middle(a: string, o: string, b: string, x: nat, n: nat)
    requires x <= |a| && |a| + |o| <= x + n <= |a| + |o| + |b|
    ensures (a + o + b)[x..x + n] == a[x..] + o + b[..x + n - |a| - |o|]
  {
  }

  /** An object wrapped in prose comes back, repaired: no opening brace before it, no closing one after. */
  lemma ExtractRecovers(a: string, o: string, b: string)
    requires o != [] && o[0] == '{' && o[|o| - 1] == '}'
    requires '{' !in a && '}' !in b
    ensures ExtractJson(a + o + b) == Repair(START, o)
  {
    hide Trim, Repair, Index, LastIndex, IsSpace;
    BracesAreNoSpace();
    var p, q := TrimKeepsMiddle(a, o, b);
    var t := p + o + q;
    var i, j := |p|, |p| + |o| - 1;
    assert forall k | 0 <= k < |p| :: t[k] == p[k] && p[k] in p;
    assert forall k | j < k < |t| :: t[k] == q[k - |p| - |o|] && q[k - |p| - |o|] in q;
    IndexAt(t, '{', i);
    LastIndexAt(t, '}', j);
    assert t[i..j + 1] == o;
  }

  /** When its literals are well formed, the object comes back exactly. */
  lemma ExtractRecoversExactly(a: string, o: string, b: string)
    requires o != [] && o[0] == '{' && o[|o| - 1] == '}' && '{' !in a && '}' !in b
    requires Decode(false, false, [], o).Some?
    ensures ExtractJson(a + o + b) == o
  {
    ExtractRecovers(a, o, b);
    ValidIsUntouched(o);
  }
}
