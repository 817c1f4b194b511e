/**
 The meaning of a rewritten query. A call n1ql("body") becomes the tagged template n1ql`body`;
 JavaScript cuts the template at its placeholders, and the n1ql tag of builtin.js puts the query
 together again. The query is shown to be the body with every placeholder replaced by its value.
 */
module Template {
  import opened Wrappers
  import opened Sequences
  import opened PreprocessorText
  import opened Preprocessor

  /** A placeholder's value: a string, or anything else with the text that concat turns it into. */
  datatype JsValue = Str(text: string) | Other(text: string)

  /** What the engine hands to the tag, and the script text behind the template. */
  datatype Literal = Literal(strings: seq<string>, expressions: seq<string>, rest: string)

  /** The values of the placeholder expressions. */
  type Environment = string -> JsValue

  /** What a backslash and one character stand for; the longer escapes are not modelled. */
  function Escape(c: char): Maybe<string> {
    if c == 'n' then Just("\n")
    else if c == 't' then Just("\t")
    else if c == 'r' then Just("\r")
    else if c == 'b' then Just("\U{8}")
    else if c == 'f' then Just("\U{C}")
    else if c == 'v' then Just("\U{B}")
    else if c in "xu0123456789\n\r" then Nothing
    else Just([c])
  }

  /** How far s[i..] is from its first closing brace, or the length of s if there is none. */
  function BraceFrom(s: string, i: nat): (k: nat)
    requires i <= |s|
    ensures i <= k <= |s|
    decreases |s| - i
  {
    if i == |s| || s[i] == '}' then i else BraceFrom(s, i + 1)
  }

  predicate AtPlaceholder(s: string) {
    |s| >= 2 && s[0] == '$' && s[1] == '{'
  }

  // ---------------------------------------------------------------- the engine

  function Before(text: string, t: Maybe<Literal>): Maybe<Literal>
    requires t.Just? ==> t.value.strings != []
  {
    if t.Nothing? then Nothing
    else Just(t.value.(strings := [text + t.value.strings[0]] + t.value.strings[1..]))
  }

  /** The template literal whose text starts here, behind the opening backquote. */
  function ReadTemplate(s: string): (t: Maybe<Literal>)
    ensures t.Just? ==> |t.value.strings| == |t.value.expressions| + 1
    decreases |s|
  {
    if s == "" then Nothing
    else if s[0] == '`' then Just(Literal([""], [], s[1..]))
    else if s[0] == '\\' then
      if |s| < 2 || Escape(s[1]).Nothing? then Nothing
      else Before(Escape(s[1]).value, ReadTemplate(s[2..]))
    else if AtPlaceholder(s) then
      var k := BraceFrom(s, 2);
      if k == |s| then Nothing
      else
        var t := ReadTemplate(s[k + 1..]);
        if t.Nothing? then Nothing
        else Just(Literal([""] + t.value.strings, [s[2..k]] + t.value.expressions, t.value.rest))
    else Before([s[0]], ReadTemplate(s[1..]))
  }

  function Values(env: Environment, expressions: seq<string>): (values: seq<JsValue>)
    ensures |values| == |expressions|
    ensures forall i :: 0 <= i < |values| ==> values[i] == env(expressions[i])
  {
    seq(|expressions|, i requires 0 <= i < |expressions| => env(expressions[i]))
  }

  // ---------------------------------------------------------------- the tag

  /** A value as it stands in the query: backquoted if it is a string with a dash in it. */
  function Spliced(v: JsValue): string {
    if v.Str? && '-' in v.text then "`" + v.text + "`" else v.text
  }

  /** What stands behind string i of the template: the values, each with the string after it. */
  function Behind(strings: seq<string>, values: seq<JsValue>, i: nat): string
    requires |strings| == |values| + 1 && i <= |values|
    decreases |values| - i
  {
    if i == |values| then "" else Spliced(values[i]) + strings[i + 1] + Behind(strings, values, i + 1)
  }

  /** The strings with the values between them. */
  function Interleaved(strings: seq<string>, values: seq<JsValue>): string
    requires |strings| == |values| + 1
  {
    strings[0] + Behind(strings, values, 0)
  }

  /** The loop of the n1ql tag. */
  method Assemble(strings: seq<string>, values: seq<JsValue>) returns (query: string)
    requires |strings| == |values| + 1
    ensures query == Interleaved(strings, values)
  {
    query := strings[0];
    var i := 0;
    while i < |strings| - 1
      invariant 0 <= i <= |values|
      invariant query + Behind(strings, values, i) == Interleaved(strings, values)
    {
      ghost var before := query;
      if values[i].Str? && '-' in values[i].text {
        query := query + "`";
        query := query + values[i].text;
        query := query + "`";
        Assoc4(before, "`", values[i].text, "`");
      } else {
        query := query + values[i].text;
      }
      assert query == before + Spliced(values[i]);
      query := query + strings[i + 1];
      Assoc4(before, Spliced(values[i]), strings[i + 1], Behind(strings, values, i + 1));
      i := i + 1;
    }
    assert query + "" == query;
  }

  lemma Unprefixed(a: string)
    ensures "" + a == a
  {
  }

  // ---------------------------------------------------------------- the reference

  function Then(text: string, s: Maybe<string>): Maybe<string> {
    if s.Nothing? then Nothing else Just(text + s.value)
  }

  /** The body with its escapes resolved and every placeholder replaced by its value. A bare
      backquote, an open placeholder or an escape that is not modelled leaves it undefined. */
  function Substitute(body: string, env: Environment): Maybe<string>
    decreases |body|
  {
    if body == "" then Just("")
    else if body[0] == '`' then Nothing
    else if body[0] == '\\' then
      if |body| < 2 || Escape(body[1]).Nothing? then Nothing
      else Then(Escape(body[1]).value, Substitute(body[2..], env))
    else if AtPlaceholder(body) then
      var k := BraceFrom(body, 2);
      if k == |body| then Nothing else Then(Spliced(env(body[2..k])), Substitute(body[k + 1..], env))
    else Then([body[0]], Substitute(body[1..], env))
  }

  /** A placeholder stands for its value, in backquotes exactly if that is a string with a dash. */
  lemma PlaceholderMeaning(e: string, rest: string, env: Environment)
    requires '}' !in e
    ensures var shown := if env(e).Str? && '-' in env(e).text then "`" + env(e).text + "`" else env(e).text;
            Substitute("${" + e + "}" + rest, env) == Then(shown, Substitute(rest, env))
  {
    var body := "${" + e + "}" + rest;
    BraceAt(body, e, 2);
    assert body[2..2 + |e|] == e && body[3 + |e|..] == rest;
  }

  lemma {:induction false} BraceAt(body: string, e: string, i: nat)
    requires 2 <= i <= 2 + |e| && 2 + |e| < |body| && body[2 + |e|] == '}'
    requires '}' !in e && forall t :: 0 <= t < |e| ==> body[2 + t] == e[t]
    ensures BraceFrom(body, i) == 2 + |e|
    decreases 2 + |e| - i
  {
    if i < 2 + |e| {
      assert body[2 + (i - 2)] == e[i - 2] && e[i - 2] in e;
      BraceAt(body, e, i + 1);
    }
  }

  /** An escaped character stands for what JavaScript says. */
  lemma EscapeMeaning(rest: string, env: Environment)
    ensures Substitute("\\n" + rest, env) == Then("\n", Substitute(rest, env))
    ensures Substitute("\\t" + rest, env) == Then("\t", Substitute(rest, env))
    ensures Substitute("\\\"" + rest, env) == Then("\"", Substitute(rest, env))
    ensures Substitute("\\`" + rest, env) == Then("`", Substitute(rest, env))
  {
    assert ("\\n" + rest)[2..] == rest && ("\\t" + rest)[2..] == rest;
    assert ("\\\"" + rest)[2..] == rest && ("\\`" + rest)[2..] == rest;
  }

  /** Text without dollars, backquotes and backslashes stands for itself. */
  lemma {:induction false} PlainTextMeaning(text: string, rest: string, env: Environment)
    requires '$' !in text && '`' !in text && '\\' !in text
    ensures Substitute(text + rest, env) == Then(text, Substitute(rest, env))
    decreases |text|
  {
    if text == "" {
      assert text + rest == rest;
      if Substitute(rest, env).Just? {
        assert "" + Substitute(rest, env).value == Substitute(rest, env).value;
      }
    } else {
      assert (text + rest)[0] == text[0] && (text + rest)[1..] == text[1..] + rest;
      PlainTextMeaning(text[1..], rest, env);
      if Substitute(rest, env).Just? {
        Assoc([text[0]], text[1..], Substitute(rest, env).value);
        assert [text[0]] + text[1..] == text;
      }
    }
  }

  // ---------------------------------------------------------------- cutting and putting together

  lemma SameTails<T>(a: seq<T>, i: nat, b: seq<T>, j: nat)
    requires i < |a| && j < |b| && a[i..] == b[j..]
    ensures a[i] == b[j] && a[i + 1..] == b[j + 1..]
  {
    assert a[i..][0] == b[j..][0];
    assert a[i..][1..] == b[j..][1..];
  }

  /** What stands behind a string depends only on what follows it. */
  lemma {:induction false} SameBehind(a: seq<string>, va: seq<JsValue>, i: nat, b: seq<string>, vb: seq<JsValue>, j: nat)
    requires |a| == |va| + 1 && |b| == |vb| + 1 && i <= |va| && j <= |vb|
    requires a[i + 1..] == b[j + 1..] && va[i..] == vb[j..]
    ensures Behind(a, va, i) == Behind(b, vb, j)
    decreases |va| - i
  {
    assert |va| - i == |va[i..]| == |vb[j..]| == |vb| - j;
    if i < |va| {
      SameTails(a, i + 1, b, j + 1);
      SameTails(va, i, vb, j);
      SameBehind(a, va, i + 1, b, vb, j + 1);
    }
  }

  /** Plain text in front of a template. */
  lemma TextFirst(text: string, t: Literal, env: Environment)
    requires |t.strings| == |t.expressions| + 1
    ensures var u := Before(text, Just(t)).value;
            Interleaved(u.strings, Values(env, u.expressions))
            == text + Interleaved(t.strings, Values(env, t.expressions))
  {
    var u := Before(text, Just(t)).value;
    var values := Values(env, t.expressions);
    assert u.strings[1..] == t.strings[1..];
    SameBehind(u.strings, values, 0, t.strings, values, 0);
    Assoc(text, t.strings[0], Behind(t.strings, values, 0));
  }

  /** A placeholder in front of a template. */
  lemma PlaceholderFirst(e: string, t: Literal, env: Environment)
    requires |t.strings| == |t.expressions| + 1
    ensures Interleaved([""] + t.strings, Values(env, [e] + t.expressions))
            == Spliced(env(e)) + Interleaved(t.strings, Values(env, t.expressions))
  {
    var values := Values(env, t.expressions);
    var all := Values(env, [e] + t.expressions);
    assert all[1..] == values && all[0] == env(e);
    assert ([""] + t.strings)[2..] == t.strings[1..];
    SameBehind([""] + t.strings, all, 1, t.strings, values, 0);
    Assoc(Spliced(env(e)), t.strings[0], Behind(t.strings, values, 0));
    Unprefixed(Behind([""] + t.strings, all, 0));
  }

  lemma {:induction false} BraceInPrefix(s: string, more: string, i: nat)
    requires i <= |s| && BraceFrom(s, i) < |s|
    ensures BraceFrom(s + more, i) == BraceFrom(s, i)
    decreases |s| - i
  {
    if s[i] != '}' {
      BraceInPrefix(s, more, i + 1);
    }
  }

  /** The template that holds a body, as the engine cuts it and the tag puts it together. */
  ghost predicate Means(t: Maybe<Literal>, env: Environment, query: string, rest: string) {
    && t.Just? && t.value.rest == rest && |t.value.strings| == |t.value.expressions| + 1
    && Interleaved(t.value.strings, Values(env, t.value.expressions)) == query
  }

  /** The text of a template that holds a body. */
  function Holding(body: string, rest: string): string {
    body + ("`" + rest)
  }

  lemma ReadEscape(body: string, rest: string)
    requires |body| >= 2 && body[0] == '\\' && Escape(body[1]).Just?
    ensures ReadTemplate(Holding(body, rest)) == Before(Escape(body[1]).value, ReadTemplate(Holding(body[2..], rest)))
  {
    assert Holding(body, rest)[2..] == Holding(body[2..], rest);
  }

  lemma ReadChar(body: string, rest: string)
    requires body != "" && body[0] != '\\' && body[0] != '`' && !AtPlaceholder(body)
    ensures ReadTemplate(Holding(body, rest)) == Before([body[0]], ReadTemplate(Holding(body[1..], rest)))
  {
    assert Holding(body, rest)[1..] == Holding(body[1..], rest);
    DollarAtEnd(body, rest);
  }

  lemma ReadPlaceholder(body: string, rest: string)
    requires AtPlaceholder(body) && BraceFrom(body, 2) < |body|
    ensures var k := BraceFrom(body, 2);
            var t := ReadTemplate(Holding(body[k + 1..], rest));
            t.Just? ==> ReadTemplate(Holding(body, rest))
                        == Just(Literal([""] + t.value.strings, [body[2..k]] + t.value.expressions, t.value.rest))
  {
    var k := BraceFrom(body, 2);
    BraceInPrefix(body, "`" + rest, 2);
    Slices(body, rest, k);
    PlaceholderRead(Holding(body, rest), k);
  }

  lemma Slices(body: string, rest: string, k: nat)
    requires AtPlaceholder(body) && 2 <= k < |body|
    ensures var s := Holding(body, rest);
            AtPlaceholder(s) && k < |s| && s[k + 1..] == Holding(body[k + 1..], rest) && s[2..k] == body[2..k]
  {
  }

  lemma PlaceholderRead(s: string, k: nat)
    requires AtPlaceholder(s) && BraceFrom(s, 2) == k < |s|
    ensures var t := ReadTemplate(s[k + 1..]);
            t.Just? ==> ReadTemplate(s)
                        == Just(Literal([""] + t.value.strings, [s[2..k]] + t.value.expressions, t.value.rest))
  {
  }

  /** The engine and the reference agree on a body that starts with text, if they do behind it. */
  lemma TextStep(text: string, t: Maybe<Literal>, env: Environment, query: string, rest: string)
    requires Means(t, env, query, rest)
    ensures Means(Before(text, t), env, text + query, rest)
  {
    TextFirst(text, t.value, env);
  }

  lemma EscapeStep(body: string, env: Environment, rest: string)
    requires body != "" && body[0] == '\\' && Substitute(body, env).Just?
    requires Means(ReadTemplate(Holding(body[2..], rest)), env, Substitute(body[2..], env).value, rest)
    ensures Means(ReadTemplate(Holding(body, rest)), env, Substitute(body, env).value, rest)
  {
    ReadEscape(body, rest);
    TextStep(Escape(body[1]).value, ReadTemplate(Holding(body[2..], rest)), env, Substitute(body[2..], env).value, rest);
  }

  lemma CharStep(body: string, env: Environment, rest: string)
    requires body != "" && body[0] != '\\' && !AtPlaceholder(body) && Substitute(body, env).Just?
    requires Means(ReadTemplate(Holding(body[1..], rest)), env, Substitute(body[1..], env).value, rest)
    ensures Means(ReadTemplate(Holding(body, rest)), env, Substitute(body, env).value, rest)
  {
    ReadChar(body, rest);
    TextStep([body[0]], ReadTemplate(Holding(body[1..], rest)), env, Substitute(body[1..], env).value, rest);
  }

  lemma PlaceholderStep(body: string, env: Environment, rest: string)
    requires AtPlaceholder(body) && Substitute(body, env).Just?
    requires var more := body[BraceFrom(body, 2) + 1..];
             Means(ReadTemplate(Holding(more, rest)), env, Substitute(more, env).value, rest)
    ensures Means(ReadTemplate(Holding(body, rest)), env, Substitute(body, env).value, rest)
  {
    var k := BraceFrom(body, 2);
    ReadPlaceholder(body, rest);
    PlaceholderFirst(body[2..k], ReadTemplate(Holding(body[k + 1..], rest)).value, env);
  }

  /** Cutting the template and running the tag gives the substituted body, and the template
      ends where the body does. */
  lemma {:induction false} TemplateMeansBody(body: string, env: Environment, rest: string)
    requires Substitute(body, env).Just?
    ensures Means(ReadTemplate(Holding(body, rest)), env, Substitute(body, env).value, rest)
    decreases |body|
  {
    if body == "" {
      assert Holding(body, rest) == "`" + rest;
      assert Holding(body, rest)[1..] == rest;
    } else if body[0] == '\\' {
      TemplateMeansBody(body[2..], env, rest);
      EscapeStep(body, env, rest);
    } else if AtPlaceholder(body) {
      TemplateMeansBody(body[BraceFrom(body, 2) + 1..], env, rest);
      PlaceholderStep(body, env, rest);
    } else {
      TemplateMeansBody(body[1..], env, rest);
      CharStep(body, env, rest);
    }
  }

  /** The backquote behind a body makes no placeholder out of its last character. */
  lemma DollarAtEnd(body: string, rest: string)
    requires body != "" && !AtPlaceholder(body)
    ensures !AtPlaceholder(Holding(body, rest))
  {
    var s := Holding(body, rest);
    if |body| == 1 {
      assert s[1] == '`';
    } else {
      assert s[1] == body[1];
    }
  }

  lemma ScriptText(before: string, body: string, after: string)
    ensures var script := before + QueryText(body) + after;
            var start := |before + "n1ql`"|;
            && start <= |script| && script[..start] == before + "n1ql`"
            && script[start..] == Holding(body, after)
  {
  }

  // ---------------------------------------------------------------- against the call as written

  /** The value of a JavaScript string literal with this text between its double quotes. */
  function StringLiteral(text: string): Maybe<string>
    decreases |text|
  {
    if text == "" then Just("")
    else if text[0] == '"' then Nothing
    else if text[0] == '\\' then
      if |text| < 2 || Escape(text[1]).Nothing? then Nothing
      else Then(Escape(text[1]).value, StringLiteral(text[2..]))
    else Then([text[0]], StringLiteral(text[1..]))
  }

  predicate NoTemplateSyntax(body: string) {
    && '`' !in body
    && forall i :: 0 <= i < |body| - 1 ==> !(body[i] == '$' && body[i + 1] == '{')
  }

  /** A query without placeholders: the template means what the call with a plain string
      argument would have meant. */
  lemma {:induction false} PlainQueryKept(body: string, env: Environment)
    requires NoTemplateSyntax(body) && StringLiteral(body).Just?
    ensures Substitute(body, env) == StringLiteral(body)
    decreases |body|
  {
    if body != "" {
      assert !AtPlaceholder(body);
      if body[0] == '\\' {
        PlainQueryKept(body[2..], env);
      } else {
        PlainQueryKept(body[1..], env);
      }
    }
  }

  /** A bare backquote in the body, harmless in the call as written, ends the template there. */
  lemma BackquoteEndsTemplate(first: string, second: string, env: Environment, rest: string)
    requires Substitute(first, env).Just?
    ensures Means(ReadTemplate(Holding(first + ("`" + second), rest)), env,
                  Substitute(first, env).value, Holding(second, rest))
  {
    assert Holding(first + ("`" + second), rest) == Holding(first, Holding(second, rest));
    TemplateMeansBody(first, env, Holding(second, rest));
  }
}
