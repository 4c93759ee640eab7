/**
 * Escaping raw newlines inside the string literals of a JSON text, so that
 * the text can be embedded in an HTML `<script>` block. The architecture
 * scripts scan the text once, keeping an "inside a string" flag that a
 * quote toggles unless the character before it is a backslash.
 *
 * That test is not the JSON rule: a string ending in an escaped backslash
 * (`"\\"`) ends at a quote that follows a backslash, so the flag stays set
 * after the string has closed. The scan as written is modelled by
 * `EscapeAsWritten`; `Escape` follows the JSON lexer (a backslash inside a
 * string escapes exactly the next character).
 */
module JsonEscape {

  // ----- The scan as written -----

  /** One step of the written scan: the character emitted for `c`. */
  function EmitAsWritten(inString: bool, afterBackslash: bool, c: char): (r: string)
  {
    if c == '"' && !afterBackslash then [c]
    else if inString && c == '\n' then "\\n"
    else [c]
  }

  /** The flag after `c`: toggled by a quote whose predecessor is not a backslash. */
  function ToggleAsWritten(inString: bool, afterBackslash: bool, c: char): bool
  {
    if c == '"' && !afterBackslash then !inString else inString
  }

  /** The written scan of `s`, started with the given flag and predecessor. */
  function EscapeAsWritten(inString: bool, afterBackslash: bool, s: string): (r: string)
    decreases |s|
  {
    if s == [] then []
    else EmitAsWritten(inString, afterBackslash, s[0])
         + EscapeAsWritten(ToggleAsWritten(inString, afterBackslash, s[0]), s[0] == '\\', s[1..])
  }

  /** The newlines the written scan takes to be inside a string. */
  function NewlinesInStringAsWritten(inString: bool, afterBackslash: bool, s: string): (n: nat)
    ensures n <= |s|
    decreases |s|
  {
    if s == [] then 0
    else (if inString && s[0] == '\n' then 1 else 0)
         + NewlinesInStringAsWritten(ToggleAsWritten(inString, afterBackslash, s[0]), s[0] == '\\', s[1..])
  }

  /** No newline the written scan reads falls inside a string. */
  predicate NoRawNewlineAsWritten(inString: bool, afterBackslash: bool, s: string)
    decreases |s|
  {
    s == [] ||
    ((s[0] == '\n' ==> !inString)
     && NoRawNewlineAsWritten(ToggleAsWritten(inString, afterBackslash, s[0]), s[0] == '\\', s[1..]))
  }

  /** The written scan from position `i` emits the character at `i`, then scans on from `i + 1`. */
  lemma AsWrittenStep(inString: bool, json: string, i: nat)
    requires i < |json|
    ensures var afterBackslash := i > 0 && json[i - 1] == '\\';
      EscapeAsWritten(inString, afterBackslash, json[i..])
      == EmitAsWritten(inString, afterBackslash, json[i])
         + EscapeAsWritten(ToggleAsWritten(inString, afterBackslash, json[i]), json[i] == '\\', json[i + 1..])
  {
    assert json[i..][1..] == json[i + 1..];
  }

  lemma ConcatAssoc(a: string, b: string, c: string)
    ensures (a + b) + c == a + (b + c)
  {
  }

  /** `escape_newlines_in_json` / `escape_newlines_in_json_strings`. */
  method EscapeNewlinesInJson(json: string) returns (r: string)
    ensures r == EscapeAsWritten(false, false, json)
  {
    r := "";
    var inString := false;
    for i := 0 to |json|
      invariant r + EscapeAsWritten(inString, i > 0 && json[i - 1] == '\\', json[i..]) == EscapeAsWritten(false, false, json)
    {
      var c := json[i];
      var afterBackslash := i > 0 && json[i - 1] == '\\';
      AsWrittenStep(inString, json, i);
      ghost var was := inString;
      var out: string;
      if c == '"' && !afterBackslash {
        inString := !inString;
        out := [c];
      } else if inString && c == '\n' {
        out := "\\n";
      } else {
        out := [c];
      }
      assert out == EmitAsWritten(was, afterBackslash, c) && inString == ToggleAsWritten(was, afterBackslash, c);
      ConcatAssoc(r, out, EscapeAsWritten(inString, c == '\\', json[i + 1..]));
      r := r + out;
    }
    assert json[|json|..] == [];
  }

  /**
   * Each newline inside a string grows the text by one character, and a
   * text with no such newline comes back unchanged.
   */
  lemma {:induction false} AsWrittenLength(inString: bool, afterBackslash: bool, s: string)
    ensures |EscapeAsWritten(inString, afterBackslash, s)| == |s| + NewlinesInStringAsWritten(inString, afterBackslash, s)
    ensures NewlinesInStringAsWritten(inString, afterBackslash, s) == 0 ==> EscapeAsWritten(inString, afterBackslash, s) == s
    decreases |s|
  {
    if s != [] {
      AsWrittenLength(ToggleAsWritten(inString, afterBackslash, s[0]), s[0] == '\\', s[1..]);
      assert s == [s[0]] + s[1..];
    }
  }

  /**
   * Read again by the same scan, the output has no newline inside a string:
   * the emitted `\n` pair leaves the flag where the newline left it, and
   * neither of its characters is a quote or makes the next one follow a
   * backslash.
   */
  lemma {:induction false} AsWrittenNoRawNewline(inString: bool, afterBackslash: bool, s: string)
    ensures NoRawNewlineAsWritten(inString, afterBackslash, EscapeAsWritten(inString, afterBackslash, s))
    decreases |s|
  {
    if s != [] {
      var c := s[0];
      var next := ToggleAsWritten(inString, afterBackslash, c);
      var rest := EscapeAsWritten(next, c == '\\', s[1..]);
      AsWrittenNoRawNewline(next, c == '\\', s[1..]);
      var out := EscapeAsWritten(inString, afterBackslash, s);
      if inString && c == '\n' {
        assert out == "\\n" + rest;
        assert out[1..] == "n" + rest && out[2..] == rest;
        assert NoRawNewlineAsWritten(inString, false, "n" + rest);
      } else {
        assert out == [c] + rest && out[1..] == rest;
      }
    }
  }

  /** A quote right after a backslash never changes the flag, inside or outside a string. */
  lemma EscapedQuoteKeepsFlag(inString: bool, s: string)
    requires |s| >= 2 && s[0] == '\\' && s[1] == '"'
    ensures EscapeAsWritten(inString, false, s) == "\\\"" + EscapeAsWritten(inString, false, s[2..])
  {
    assert s[1..][1..] == s[2..];
  }

  // ----- The JSON lexer -----

  /** Where a JSON lexer is: outside any string, inside one, or right after a backslash inside one. */
  datatype Lex = Outside | Inside | AfterBackslash

  function Next(st: Lex, c: char): Lex
  {
    match st
    case Outside => if c == '"' then Inside else Outside
    case Inside => if c == '"' then Outside else if c == '\\' then AfterBackslash else Inside
    case AfterBackslash => Inside
  }

  /** The state after reading all of `s`. */
  function LexEnd(st: Lex, s: string): Lex
    decreases |s|
  {
    if s == [] then st else LexEnd(Next(st, s[0]), s[1..])
  }

  /** No newline falls inside a string. */
  predicate NoRawNewline(st: Lex, s: string)
    decreases |s|
  {
    s == [] || ((s[0] == '\n' ==> st == Outside) && NoRawNewline(Next(st, s[0]), s[1..]))
  }

  function NewlinesInString(st: Lex, s: string): (n: nat)
    ensures n <= |s|
    decreases |s|
  {
    if s == [] then 0
    else (if st != Outside && s[0] == '\n' then 1 else 0) + NewlinesInString(Next(st, s[0]), s[1..])
  }

  /** The escaping as evidently intended: string regions as the JSON lexer sees them. */
  function Escape(st: Lex, s: string): (r: string)
    decreases |s|
  {
    if s == [] then []
    else (if st != Outside && s[0] == '\n' then "\\n" else [s[0]]) + Escape(Next(st, s[0]), s[1..])
  }

  /** The escaping with a correct string scan. */
  method EscapeNewlines(json: string) returns (r: string)
    ensures r == Escape(Outside, json)
    ensures |r| == |json| + NewlinesInString(Outside, json)
    ensures NewlinesInString(Outside, json) == 0 ==> r == json
    ensures NoRawNewline(Outside, r) && LexEnd(Outside, r) == LexEnd(Outside, json)
  {
    r := "";
    var st := Outside;
    for i := 0 to |json|
      invariant r + Escape(st, json[i..]) == Escape(Outside, json)
    {
      var c := json[i];
      assert json[i..][1..] == json[i + 1..];
      if st != Outside && c == '\n' {
        r := r + "\\n";
      } else {
        r := r + [c];
      }
      st := Next(st, c);
    }
    assert json[|json|..] == [];
    EscapeLength(Outside, json);
    EscapeNoRawNewline(Outside, json);
  }

  lemma {:induction false} EscapeLength(st: Lex, s: string)
    ensures |Escape(st, s)| == |s| + NewlinesInString(st, s)
    ensures NewlinesInString(st, s) == 0 ==> Escape(st, s) == s
    decreases |s|
  {
    if s != [] {
      EscapeLength(Next(st, s[0]), s[1..]);
      assert s == [s[0]] + s[1..];
    }
  }

  /**
   * The output has no raw newline in a string, and the lexer leaves the
   * output in the state it leaves the input in: `\` then `n` moves the
   * lexer exactly as the newline did.
   */
  lemma {:induction false} EscapeNoRawNewline(st: Lex, s: string)
    ensures NoRawNewline(st, Escape(st, s))
    ensures LexEnd(st, Escape(st, s)) == LexEnd(st, s)
    decreases |s|
  {
    if s != [] {
      var c := s[0];
      var rest := Escape(Next(st, c), s[1..]);
      EscapeNoRawNewline(Next(st, c), s[1..]);
      var out := Escape(st, s);
      if st != Outside && c == '\n' {
        assert out == "\\n" + rest;
        assert out[1..] == "n" + rest && out[2..] == rest;
        assert Next(Next(st, '\\'), 'n') == Next(st, c);
      } else {
        assert out == [c] + rest && out[1..] == rest;
      }
    }
  }

  /**
   * The input `"\\"` followed by a newline: a complete string holding one
   * escaped backslash, then a newline outside any string. The lexer
   * leaves it unchanged; the written scan, which reads the closing quote
   * as escaped, turns the newline into `\n` outside the string.
   */
  lemma EscapedBackslashClosesString()
    ensures var s := "\"\\\\\"\n";
      LexEnd(Outside, s[..4]) == Outside
      && Escape(Outside, s) == s
      && EscapeAsWritten(false, false, s) == "\"\\\\\"\\n"
  {
    var s := "\"\\\\\"\n";
    assert s[1..][1..][1..][1..] == "\n";
    var t := s[..4];
    assert t[1..] == "\\\\\"" && t[1..][1..] == "\\\"" && t[1..][1..][1..] == "\"" && t[1..][1..][1..][1..] == [];
    assert LexEnd(Outside, t) == LexEnd(Inside, t[1..]) == LexEnd(AfterBackslash, t[1..][1..])
      == LexEnd(Inside, t[1..][1..][1..]) == LexEnd(Outside, t[1..][1..][1..][1..]);
  }
}
