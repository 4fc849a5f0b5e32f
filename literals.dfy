/**
 * The literal encoder (`WrapLiteral`): a default value of kind Literal is
 * emitted unchanged when it reads as a number, is already parenthesised, or
 * is one of the zero-argument generator calls GETDATE() and NEWID();
 * otherwise it becomes a T-SQL string literal, with every single quote
 * doubled and the whole wrapped in single quotes.
 */
module Literals {
  import opened Wrappers
  import opened Text

  /** `value.Replace("'", "''")`. */
  function EscapeQuotes(s: string): (r: string)
    ensures |r| >= |s|
    ensures r == s <==> '\'' !in s
    ensures CollapseQuotes(r) == s
  {
    if s == [] then []
    else
      var rest := EscapeQuotes(s[1..]);
      if s[0] == '\'' then
        assert ("''" + rest)[2..] == rest;
        "''" + rest
      else
        assert ([s[0]] + rest)[1..] == rest;
        assert s == [s[0]] + s[1..];
        [s[0]] + rest
  }

  /** Collapses every doubled quote, reading left to right. */
  function CollapseQuotes(t: string): string {
    if |t| >= 2 && t[0] == '\'' && t[1] == '\'' then "'" + CollapseQuotes(t[2..])
    else if t == [] then []
    else [t[0]] + CollapseQuotes(t[1..])
  }

  /** Reads the body of a T-SQL string literal up to its closing quote, a
      doubled quote standing for one quote; gives the value and what follows
      the closing quote. */
  function ReadQuotedBody(t: string): Option<(string, string)> {
    if t == [] then Option.None
    else if t[0] == '\'' then
      if |t| >= 2 && t[1] == '\'' then
        match ReadQuotedBody(t[2..])
        case Some(vr) => Some(("'" + vr.0, vr.1))
        case None => Option.None
      else Some(("", t[1..]))
    else
      match ReadQuotedBody(t[1..])
      case Some(vr) => Some(([t[0]] + vr.0, vr.1))
      case None => Option.None
  }

  /** How SQL Server reads a complete T-SQL string literal. */
  function ReadStringLiteral(s: string): Option<string> {
    if s != [] && s[0] == '\'' then
      match ReadQuotedBody(s[1..])
      case Some(vr) => if vr.1 == [] then Some(vr.0) else Option.None
      case None => Option.None
    else Option.None
  }

  /** A doubled quote reads as one quote, and reading goes on after it. */
  lemma ReadDoubledQuote(u: string)
    ensures ReadQuotedBody("''" + u) ==
              match ReadQuotedBody(u)
              case Some(vr) => Some(("'" + vr.0, vr.1))
              case None => Option.None
  {
    assert ("''" + u)[2..] == u;
  }

  /** Any other character reads as itself. */
  lemma ReadPlainChar(c: char, u: string)
    requires c != '\''
    ensures ReadQuotedBody([c] + u) ==
              match ReadQuotedBody(u)
              case Some(vr) => Some(([c] + vr.0, vr.1))
              case None => Option.None
  {
    assert ([c] + u)[1..] == u;
  }

  lemma {:induction false} ReadEscaped(v: string, rest: string)
    requires rest == [] || rest[0] != '\''
    ensures ReadQuotedBody(EscapeQuotes(v) + "'" + rest) == Some((v, rest))
  {
    if v == [] {
      var t := EscapeQuotes(v) + "'" + rest;
      assert t == "'" + rest;
      assert t[1..] == rest;
    } else {
      var head := if v[0] == '\'' then "''" else [v[0]];
      var u := EscapeQuotes(v[1..]) + "'" + rest;
      EscapeCons(v);
      AppendAssoc(head, EscapeQuotes(v[1..]), "'");
      AppendAssoc(head, EscapeQuotes(v[1..]) + "'", rest);
      ReadEscaped(v[1..], rest);
      assert v == [v[0]] + v[1..];
      if v[0] == '\'' {
        ReadDoubledQuote(u);
      } else {
        ReadPlainChar(v[0], u);
      }
    }
  }

  lemma EscapeCons(v: string)
    requires v != []
    ensures EscapeQuotes(v) == (if v[0] == '\'' then "''" else [v[0]]) + EscapeQuotes(v[1..])
  {
  }

  /** The generator calls passed through unquoted. */
  predicate IsGeneratorCall(value: string) {
    EqualsIgnoreCase(value, "GETDATE()") || EqualsIgnoreCase(value, "NEWID()")
  }

  predicate IsParenthesised(value: string) {
    "(" <= value && |value| >= 1 && value[|value| - 1] == ')'
  }

  /** Whether the value is passed through as written; `parsesAsDecimal`
      stands for `decimal.TryParse` under the current culture. */
  predicate IsPassedThrough(value: string, parsesAsDecimal: string -> bool) {
    parsesAsDecimal(value) || IsParenthesised(value) || IsGeneratorCall(value)
  }

  /** A quoted, escaped value is framed by quotes, and SQL Server reads it
      back as the value. */
  lemma QuotedReadsBack(value: string)
    ensures var r := "'" + EscapeQuotes(value) + "'";
            r[0] == '\'' && r[|r| - 1] == '\''
            && CollapseQuotes(r[1..|r| - 1]) == value
            && ReadStringLiteral(r) == Some(value)
  {
    var escaped := EscapeQuotes(value);
    var r := "'" + escaped + "'";
    assert r[1..|r| - 1] == escaped;
    ReadEscaped(value, []);
    assert r[1..] == escaped + "'" + [];
  }

  /** `WrapLiteral`: a value passed through is kept as written; any other
      value is quoted with its quotes doubled. */
  function WrapLiteral(value: string, parsesAsDecimal: string -> bool): string {
    if IsPassedThrough(value, parsesAsDecimal) then value
    else "'" + EscapeQuotes(value) + "'"
  }

  /** Pass-through values are unchanged; any other value becomes a string
      literal that SQL Server reads back as exactly that value. */
  lemma WrapLiteralReadsBack(value: string, parsesAsDecimal: string -> bool)
    ensures var r := WrapLiteral(value, parsesAsDecimal);
            (r == value <==> IsPassedThrough(value, parsesAsDecimal))
            && (!IsPassedThrough(value, parsesAsDecimal) ==>
                  |r| >= 2 && r[0] == '\'' && r[|r| - 1] == '\''
                  && CollapseQuotes(r[1..|r| - 1]) == value
                  && ReadStringLiteral(r) == Some(value))
  {
    if !IsPassedThrough(value, parsesAsDecimal) {
      QuotedReadsBack(value);
    }
  }
}
