/**
 * The string-escape scenario of the interpreter's unit tests
 * (src/interpreter.rs:618-628), from the bytes of the literal to the binding.
 */
module StringScenario {
  import opened Text
  import opened Ast
  import opened Values
  import opened Evaluation
  import Lexing
  import LexerProperties
  import EvalScenarios

  /**
   * `var s = "line1\nline2";`: the lexer turns the escape into a newline
   * byte, and the declaration binds `s` to exactly those bytes.
   */
  lemma StringEscapes(h: FloatHost, s: Bytes, st: State, fuel: nat)
    ensures var v := Ascii("line1") + [NEWLINE] + Ascii("line2");
      var src := [Lexing.QUOTE] + Ascii("line1") + [Lexing.BACKSLASH, 'n' as byte] + Ascii("line2") + [Lexing.QUOTE];
      Lexing.ScanToken(src, Lexing.Start).0 == Lexing.Token(Lexing.String, v, 1, 1)
      && Run(h, Program([VarDecl(s, Lit(StrLit(v)))]), st, fuel) == Ran((), st.(env := st.env.Define(s, Str(v))))
  {
    var a, b := Ascii("line1"), Ascii("line2");
    PlainWord(a, "line1");
    PlainWord(b, "line2");
    LexerProperties.EscapedNewline(a, b);
    var v := a + [NEWLINE] + b;
    var p := Program([VarDecl(s, Lit(StrLit(v)))]);
    EvalScenarios.DefineStep(h, p, 0, st, Str(v), fuel);
  }

  /** The five-letter words of the escape scenario hold no byte that needs escaping. */
  lemma PlainWord(w: Bytes, text: string)
    requires text == "line1" || text == "line2"
    requires w == Ascii(text)
    ensures forall i | 0 <= i < |w| :: LexerProperties.PlainByte(w[i])
  {
    assert forall i | 0 <= i < |text| :: text[i] < 128 as char && text[i] != '"' && text[i] != '\\' && text[i] != '\n' && text[i] != '\t' && text[i] != '\r';
  }
}
