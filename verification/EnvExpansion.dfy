// Expanding ${NAME} and ${NAME:-default} in configuration values.

module EnvExpansion {

  import opened Wrappers
  import opened TextSearch

  type Environment = map<string, string>

  // Expansion

  // The value of what stands between the braces.
  function Value(inner: string, env: Environment): string {
    match IndexOf(inner, ":-")
    case Some(i) => if inner[..i] in env then env[inner[..i]] else inner[i + 2..]
    case None => if inner in env then env[inner] else ""
  }

  function Expand(s: string, env: Environment): string
    decreases |s|, 0
  {
    match IndexOf(s, "${")
    case None => s
    case Some(start) => s[..start] + ExpandOpened(s[start + 2..], env)
  }

  // The expansion of what follows an opening brace.
  function ExpandOpened(rest: string, env: Environment): string
    decreases |rest|, 1
  {
    match IndexOf(rest, "}")
    case None => "${" + Expand(rest, env)
    case Some(end) => Value(rest[..end], env) + Expand(rest[end + 1..], env)
  }

  method ExpandEnvVar(value: string, env: Environment) returns (result: string)
    ensures result == Expand(value, env)
  {
    result := "";
    var rest := value;
    var start := IndexOf(rest, "${");
    while start.Some?
      invariant start == IndexOf(rest, "${")
      invariant result + Expand(rest, env) == Expand(value, env)
      decreases |rest|
    {
      Regroup(result, rest[..start.value], ExpandOpened(rest[start.value + 2..], env));
      result := result + rest[..start.value];
      rest := rest[start.value + 2..];
      var end := IndexOf(rest, "}");
      ghost var unread := ExpandOpened(rest, env);
      assert result + unread == Expand(value, env);
      var expanded: string;
      if end.Some? {
        var inner := rest[..end.value];
        rest := rest[end.value + 1..];
        var separator := IndexOf(inner, ":-");
        if separator.Some? {
          var name, default := inner[..separator.value], inner[separator.value + 2..];
          expanded := if name in env then env[name] else default;
        } else {
          expanded := if inner in env then env[inner] else "";
        }
        assert expanded == Value(inner, env);
        assert unread == expanded + Expand(rest, env);
      } else {
        expanded := "${";
        assert unread == expanded + Expand(rest, env);
      }
      Regroup(result, expanded, Expand(rest, env));
      result := result + expanded;
      start := IndexOf(rest, "${");
    }
    result := result + rest;
  }

  // Templates

  datatype Token = Literal(text: string) | Ref(name: string) | RefOr(name: string, default: string)

  predicate WellFormed(t: Token) {
    match t
    case Literal(text) => text != "" && !Contains(text, "${")
    case Ref(name) => !Contains(name, "}") && !Contains(name, ":-")
    case RefOr(name, default) => !Contains(name, "}") && !Contains(name, ":-") && !Contains(default, "}")
  }

  // Every token is well formed, and no two literals meet.
  predicate IsTemplate(tokens: seq<Token>) {
    tokens != [] ==>
      WellFormed(tokens[0]) && IsTemplate(tokens[1..]) &&
      (|tokens| > 1 ==> !(tokens[0].Literal? && tokens[1].Literal?))
  }

  function PrintToken(t: Token): string {
    match t
    case Literal(text) => text
    case Ref(name) => "${" + (name + "}")
    case RefOr(name, default) => "${" + (name + ":-" + default + "}")
  }

  function Print(tokens: seq<Token>): string {
    if tokens == [] then "" else PrintToken(tokens[0]) + Print(tokens[1..])
  }

  function RenderToken(t: Token, env: Environment): string {
    match t
    case Literal(text) => text
    case Ref(name) => if name in env then env[name] else ""
    case RefOr(name, default) => if name in env then env[name] else default
  }

  function Render(tokens: seq<Token>, env: Environment): string {
    if tokens == [] then "" else RenderToken(tokens[0], env) + Render(tokens[1..], env)
  }

  // What may follow the last complete token: nothing, or a reference that is never closed.
  predicate Unclosed(tail: string) {
    tail == "" || ("${" <= tail && !Contains(tail[2..], "}"))
  }

  lemma {:induction false} UnclosedIsKept(s: string, env: Environment)
    requires !Contains(s, "}")
    ensures Expand(s, env) == s
    decreases |s|
  {
    if Contains(s, "${") {
      var start := IndexOf(s, "${").value;
      var rest := s[start + 2..];
      if Contains(rest, "}") { SuffixContains(s, start + 2, "}"); }
      UnclosedIsKept(rest, env);
      assert s == s[..start] + ("${" + rest);
    }
  }

  lemma ExpandAfterText(text: string, rest: string, env: Environment)
    requires !Contains(text, "${")
    ensures Expand(text + "${" + rest, env) == text + ExpandOpened(rest, env)
  {
    var s := text + "${" + rest;
    FoundAtJoin(text, "${", rest);
    assert s[..|text|] == text && s[|text| + 2..] == rest;
  }

  lemma ReferenceExpands(inner: string, after: string, env: Environment)
    requires !Contains(inner, "}")
    ensures ExpandOpened(inner + "}" + after, env) == Value(inner, env) + Expand(after, env)
  {
    var rest := inner + "}" + after;
    FoundAtJoin(inner, "}", after);
    assert rest[..|inner|] == inner && rest[|inner| + 1..] == after;
  }

  lemma ExpandOpening(rest: string, env: Environment)
    ensures Expand("${" + rest, env) == ExpandOpened(rest, env)
  {
    ExpandAfterText("", rest, env);
    assert "" + "${" + rest == "${" + rest;
  }

  lemma LiteralExpands(text: string, after: string, env: Environment)
    requires !Contains(text, "${") && (after == "" || "${" <= after)
    ensures Expand(text + after, env) == text + Expand(after, env)
  {
    if after == "" {
      assert text + after == text;
    } else {
      var rest := after[2..];
      assert after == "${" + rest;
      Regroup(text, "${", rest);
      ExpandAfterText(text, rest, env);
      ExpandOpening(rest, env);
    }
  }

  lemma {:induction false} JoinHasNoBrace(a: string, b: string)
    requires !Contains(a, "}") && !Contains(b, "}")
    ensures !Contains(a + ":-" + b, "}")
    decreases |a|
  {
    var s := a + ":-" + b;
    if a == "" {
      var t := "-" + b;
      assert t[1..] == b && t[0] == '-';
      assert !Contains(t, "}");
      assert s[1..] == t && s[0] == ':';
    } else {
      JoinHasNoBrace(a[1..], b);
      assert s[1..] == a[1..] + ":-" + b;
      assert s[0] == a[0];
    }
  }

  // What stands between the braces of a reference.
  function Inner(t: Token): string
    requires !t.Literal?
  {
    if t.Ref? then t.name else t.name + ":-" + t.default
  }

  lemma InnerIsRead(t: Token, env: Environment)
    requires WellFormed(t) && !t.Literal?
    ensures !Contains(Inner(t), "}") && Value(Inner(t), env) == RenderToken(t, env)
    ensures PrintToken(t) == "${" + (Inner(t) + "}")
  {
    if t.RefOr? {
      JoinHasNoBrace(t.name, t.default);
      FoundAtJoin(t.name, ":-", t.default);
      assert Inner(t)[..|t.name|] == t.name && Inner(t)[|t.name| + 2..] == t.default;
    }
  }

  lemma TokenExpands(t: Token, after: string, env: Environment)
    requires WellFormed(t) && (t.Literal? ==> after == "" || "${" <= after)
    ensures Expand(PrintToken(t) + after, env) == RenderToken(t, env) + Expand(after, env)
  {
    if t.Literal? {
      LiteralExpands(t.text, after, env);
    } else {
      InnerIsRead(t, env);
      ReferenceExpands(Inner(t), after, env);
      ExpandOpening(Inner(t) + "}" + after, env);
      Regroup("${", Inner(t) + "}", after);
    }
  }

  lemma UnclosedTail(tail: string, env: Environment)
    requires Unclosed(tail)
    ensures Expand(tail, env) == tail
  {
    if tail != "" {
      UnclosedIsKept(tail[2..], env);
      assert tail == "${" + tail[2..];
      ExpandOpening(tail[2..], env);
    }
  }

  // A literal is followed by nothing, a reference or the tail.
  lemma OpensAfterLiteral(tokens: seq<Token>, tail: string)
    requires IsTemplate(tokens) && Unclosed(tail) && (tokens != [] ==> !tokens[0].Literal?)
    ensures Print(tokens) + tail == "" || "${" <= Print(tokens) + tail
  {
    if tokens == [] {
      assert Print(tokens) + tail == tail;
    }
  }

  // Expanding a printed template renders it; values are inserted as they are, and an unclosed tail is kept.
  lemma {:induction false} ExpandIsRender(tokens: seq<Token>, tail: string, env: Environment)
    requires IsTemplate(tokens) && Unclosed(tail)
    ensures Expand(Print(tokens) + tail, env) == Render(tokens, env) + tail
    decreases |tokens|
  {
    if tokens == [] {
      assert Print(tokens) + tail == tail && Render(tokens, env) + tail == tail;
      UnclosedTail(tail, env);
    } else {
      var more := tokens[1..];
      ExpandIsRender(more, tail, env);
      if tokens[0].Literal? { OpensAfterLiteral(more, tail); }
      TokenExpands(tokens[0], Print(more) + tail, env);
      Regroup(PrintToken(tokens[0]), Print(more), tail);
      Regroup(RenderToken(tokens[0], env), Render(more, env), tail);
    }
  }

  // Every text is a template

  function ReadReference(inner: string): Token {
    match IndexOf(inner, ":-")
    case Some(i) => RefOr(inner[..i], inner[i + 2..])
    case None => Ref(inner)
  }

  function LiteralOr(text: string): seq<Token> {
    if text == "" then [] else [Literal(text)]
  }

  function Parse(s: string): (seq<Token>, string)
    decreases |s|, 0
  {
    match IndexOf(s, "${")
    case None => (LiteralOr(s), "")
    case Some(start) =>
      var (tokens, tail) := ParseOpened(s[start + 2..]);
      (LiteralOr(s[..start]) + tokens, tail)
  }

  function ParseOpened(rest: string): (seq<Token>, string)
    decreases |rest|, 1
  {
    match IndexOf(rest, "}")
    case None => ([], "${" + rest)
    case Some(end) =>
      var (tokens, tail) := Parse(rest[end + 1..]);
      ([ReadReference(rest[..end])] + tokens, tail)
  }

  lemma ReadReferencePrints(inner: string)
    requires !Contains(inner, "}")
    ensures WellFormed(ReadReference(inner)) && PrintToken(ReadReference(inner)) == "${" + (inner + "}")
  {
    if Contains(inner, ":-") {
      var i := IndexOf(inner, ":-").value;
      NothingBefore(inner, ":-");
      if Contains(inner[..i], "}") { PrefixContains(inner, i, "}"); }
      if Contains(inner[i + 2..], "}") { SuffixContains(inner, i + 2, "}"); }
      assert inner == inner[..i] + ":-" + inner[i + 2..];
    }
  }

  lemma PrintLiteralOr(text: string, tokens: seq<Token>)
    ensures Print(LiteralOr(text) + tokens) == text + Print(tokens)
  {
    if text == "" {
      assert LiteralOr(text) + tokens == tokens;
    } else {
      assert (LiteralOr(text) + tokens)[1..] == tokens;
    }
  }

  lemma LiteralOrKeepsTemplate(text: string, tokens: seq<Token>)
    requires !Contains(text, "${") && IsTemplate(tokens) && (tokens != [] ==> !tokens[0].Literal?)
    ensures IsTemplate(LiteralOr(text) + tokens)
  {
    if text == "" {
      assert LiteralOr(text) + tokens == tokens;
    } else {
      assert (LiteralOr(text) + tokens)[1..] == tokens;
    }
  }

  // tokens and tail are a reading of s: they print back to it.
  predicate Reads(tokens: seq<Token>, tail: string, s: string) {
    IsTemplate(tokens) && Unclosed(tail) && Print(tokens) + tail == s
  }

  lemma TextBefore(text: string, tokens: seq<Token>, tail: string, s: string)
    requires !Contains(text, "${") && Reads(tokens, tail, s) && (tokens != [] ==> !tokens[0].Literal?)
    ensures Reads(LiteralOr(text) + tokens, tail, text + s)
  {
    PrintLiteralOr(text, tokens);
    LiteralOrKeepsTemplate(text, tokens);
    Regroup(text, Print(tokens), tail);
  }

  lemma ReferenceBefore(inner: string, tokens: seq<Token>, tail: string, s: string)
    requires !Contains(inner, "}") && Reads(tokens, tail, s)
    ensures Reads([ReadReference(inner)] + tokens, tail, "${" + (inner + ("}" + s)))
  {
    var all := [ReadReference(inner)] + tokens;
    ReadReferencePrints(inner);
    assert all[1..] == tokens;
    Regroup("${" + (inner + "}"), Print(tokens), tail);
    Regroup("${", inner + "}", s);
    Regroup(inner, "}", s);
  }

  // Parsing splits any text into a template and an unclosed tail that print back to it.
  lemma {:induction false} ParsePrints(s: string)
    ensures Reads(Parse(s).0, Parse(s).1, s)
    decreases |s|, 0
  {
    if !Contains(s, "${") {
      TextBefore(s, [], "", "");
      assert LiteralOr(s) + [] == LiteralOr(s) && s + "" == s;
    } else {
      var start := IndexOf(s, "${").value;
      var text, rest := s[..start], s[start + 2..];
      NothingBefore(s, "${");
      ParseOpenedPrints(rest);
      TextBefore(text, ParseOpened(rest).0, ParseOpened(rest).1, "${" + rest);
      SplitAt(s, "${");
    }
  }

  lemma {:induction false} ParseOpenedPrints(rest: string)
    ensures Reads(ParseOpened(rest).0, ParseOpened(rest).1, "${" + rest)
    ensures ParseOpened(rest).0 != [] ==> !ParseOpened(rest).0[0].Literal?
    decreases |rest|, 1
  {
    if !Contains(rest, "}") {
      assert ("${" + rest)[2..] == rest && "" + ("${" + rest) == "${" + rest;
    } else {
      var end := IndexOf(rest, "}").value;
      var inner, after := rest[..end], rest[end + 1..];
      ParsePrints(after);
      NothingBefore(rest, "}");
      ReferenceBefore(inner, Parse(after).0, Parse(after).1, after);
      SplitAt(rest, "}");
    }
  }

  // On every text, expansion renders the references and touches nothing else.
  lemma ExpansionIsRendering(s: string, env: Environment)
    ensures var (tokens, tail) := Parse(s);
            Reads(tokens, tail, s) && Expand(s, env) == Render(tokens, env) + tail
  {
    ParsePrints(s);
    ExpandIsRender(Parse(s).0, Parse(s).1, env);
  }
}
