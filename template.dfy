/** Python's `template.format(name=value, ...)` for templates whose replacement fields are
    plain names. `{{` and `}}` stand for single braces, `{name}` is replaced by the value bound
    to `name`; an unknown name raises `KeyError`, an unclosed `{` or a lone `}` raise
    `ValueError`. */
module PyFormat {
  import opened Wrappers
  import opened PyStr

  /** No brace at all: the text is copied by `format` as it stands. */
  predicate BraceFree(s: string) {
    forall i :: 0 <= i < |s| ==> s[i] != '{' && s[i] != '}'
  }

  function Prepend(p: string, r: Result<string, string>): Result<string, string> {
    match r
    case Ok(s) => Ok(p + s)
    case Err(e) => Err(e)
  }

  function Format(t: string, args: map<string, string>): Result<string, string>
    decreases |t|
  {
    if t == [] then Ok("")
    else if t[0] == '{' && |t| >= 2 && t[1] == '{' then Prepend("{", Format(t[2..], args))
    else if t[0] == '{' then
      match Find(t[1..], "}")
      case None => Err("expected '}' before end of string")
      case Some(j) =>
        var name := t[1..j + 1];
        if name in args then Prepend(args[name], Format(t[j + 2..], args))
        else Err("'" + name + "'")
    else if t[0] == '}' && |t| >= 2 && t[1] == '}' then Prepend("}", Format(t[2..], args))
    else if t[0] == '}' then Err("Single '}' encountered in format string")
    else Prepend([t[0]], Format(t[1..], args))
  }

  /** Brace-free text is copied unchanged in front of whatever the rest formats to. */
  lemma {:induction false} FormatLiteral(a: string, rest: string, args: map<string, string>)
    requires BraceFree(a)
    ensures Format(a + rest, args) == Prepend(a, Format(rest, args))
    decreases |a|
  {
    if a == [] {
      assert a + rest == rest;
      match Format(rest, args)
      case Ok(s) => assert "" + s == s;
      case Err(_) =>
    } else {
      assert (a + rest)[1..] == a[1..] + rest;
      FormatLiteral(a[1..], rest, args);
      match Format(rest, args)
      case Ok(s) => assert [a[0]] + (a[1..] + s) == a + s;
      case Err(_) =>
    }
  }

  /** A field naming a bound value is replaced by that value, verbatim: braces inside the value
      are not interpreted again. */
  lemma FormatField(name: string, rest: string, args: map<string, string>)
    requires name != [] && BraceFree(name) && name in args
    ensures Format("{" + name + "}" + rest, args) == Prepend(args[name], Format(rest, args))
  {
    var t := "{" + name + "}" + rest;
    assert t[0] == '{' && t[1] == name[0];
    assert t[1..] == name + "}" + rest;
    var f := Find(t[1..], "}");
    assert OccursAt(t[1..], "}", |name|);
    assert f.Some? && f.value <= |name|;
    assert t[1..|name| + 1] == name;
    assert t[|name| + 2..] == rest;
  }

  /** A text with no braces formats to itself. */
  lemma FormatPlain(t: string, args: map<string, string>)
    requires BraceFree(t)
    ensures Format(t, args) == Ok(t)
  {
    FormatLiteral(t, "", args);
    assert t + "" == t;
  }

  /** A field followed by brace-free text. */
  lemma FormatFieldThenPlain(name: string, c: string, args: map<string, string>)
    requires name != [] && BraceFree(name) && name in args && BraceFree(c)
    ensures Format("{" + name + "}" + c, args) == Ok(args[name] + c)
  {
    FormatField(name, c, args);
    FormatPlain(c, args);
  }

  /** Brace-free text, a field, then a text that formats to `s`. */
  lemma FormatPlainThenField(b: string, name: string, rest: string, s: string, args: map<string, string>)
    requires name != [] && BraceFree(name) && name in args && BraceFree(b)
    requires Format(rest, args) == Ok(s)
    ensures Format(b + ("{" + name + "}" + rest), args) == Ok(b + (args[name] + s))
  {
    FormatField(name, rest, args);
    FormatLiteral(b, "{" + name + "}" + rest, args);
  }

  /** A template with a `{context}` and a `{question}` field and otherwise no braces: the
      result is the template with both values put in their places. */
  lemma FormatTwoFields(a: string, b: string, c: string, context: string, question: string)
    requires BraceFree(a) && BraceFree(b) && BraceFree(c)
    ensures Format(a + "{context}" + b + "{question}" + c,
                   map["context" := context, "question" := question])
         == Ok(a + context + b + question + c)
  {
    var args := map["context" := context, "question" := question];
    var r2 := "{" + "question" + "}" + c;
    FormatFieldThenPlain("question", c, args);
    FormatLiteral(b, r2, args);
    FormatPlainThenField(a, "context", b + r2, b + (question + c), args);
    Braced();
    Associate(a, "{context}", b, "{question}", c);
    Associate(a, context, b, question, c);
  }

  lemma Braced()
    ensures "{context}" == "{" + "context" + "}" && "{question}" == "{" + "question" + "}"
  {
  }

  lemma Associate(a: string, b: string, c: string, d: string, e: string)
    ensures a + (b + (c + (d + e))) == a + b + c + d + e
  {
  }
}
