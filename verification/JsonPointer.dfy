/** Conditions of the form `--until <JSON Pointer>=<JSON value>` (src/client/untilCondition.ts),
    against RFC 6901, sections 3 and 4. */
module JsonPointer {
  import opened Common
  import opened Digits

  type JsonParse = string -> Option<Json>

  // ---- Escapes ----

  /** s.replace(/~d/g, c). */
  function ReplaceAll(s: string, d: char, c: char): string {
    if s == "" then ""
    else if |s| >= 2 && s[0] == '~' && s[1] == d then [c] + ReplaceAll(s[2..], d, c)
    else [s[0]] + ReplaceAll(s[1..], d, c)
  }

  /** The program's decoder: first every ~1, then every ~0. */
  function DecodeToken(s: string): string {
    ReplaceAll(ReplaceAll(s, '1', '/'), '0', '~')
  }

  /** A decoder that reads the token once, as the standard's grammar suggests. */
  function DecodeOnce(s: string): string {
    if s == "" then ""
    else if |s| >= 2 && s[0] == '~' && s[1] == '1' then "/" + DecodeOnce(s[2..])
    else if |s| >= 2 && s[0] == '~' && s[1] == '0' then "~" + DecodeOnce(s[2..])
    else [s[0]] + DecodeOnce(s[1..])
  }

  function EncodeToken(t: string): string {
    if t == "" then "" else
    (if t[0] == '~' then "~0" else if t[0] == '/' then "~1" else [t[0]]) + EncodeToken(t[1..])
  }

  lemma ReplaceHead(x: char, rest: string, d: char, c: char)
    ensures ReplaceAll([x] + rest, d, c) ==
            if x == '~' && rest != "" && rest[0] == d then [c] + ReplaceAll(rest[1..], d, c) else [x] + ReplaceAll(rest, d, c)
  {
    var s := [x] + rest;
    assert s[1..] == rest;
    if rest != "" { assert s[2..] == rest[1..]; }
  }

  lemma EscapedSlash(rest: string)
    ensures DecodeToken("~1" + rest) == "/" + DecodeToken(rest)
  {
    assert "~1" + rest == ['~'] + (['1'] + rest);
    ReplaceHead('~', ['1'] + rest, '1', '/');
    ReplaceHead('/', ReplaceAll(rest, '1', '/'), '0', '~');
  }

  lemma EscapedTilde(rest: string)
    ensures DecodeToken("~0" + rest) == "~" + DecodeToken(rest)
  {
    var slashes := ReplaceAll(rest, '1', '/');
    assert "~0" + rest == ['~'] + (['0'] + rest);
    ReplaceHead('~', ['0'] + rest, '1', '/');
    ReplaceHead('0', rest, '1', '/');
    ReplaceHead('~', ['0'] + slashes, '0', '~');
  }

  predicate StartsEscape(x: char, rest: string) {
    x == '~' && rest != "" && (rest[0] == '0' || rest[0] == '1')
  }

  lemma Unescaped(x: char, rest: string)
    requires !StartsEscape(x, rest)
    ensures DecodeToken([x] + rest) == [x] + DecodeToken(rest)
  {
    var slashes := ReplaceAll(rest, '1', '/');
    ReplaceHead(x, rest, '1', '/');
    ReplaceHead(x, slashes, '0', '~');
    assert slashes != "" ==> slashes[0] == '/' || slashes[0] == rest[0];
  }

  /** Two passes in this order never see an escape that was not in the token. */
  lemma {:induction false} TwoPassesAreOne(s: string)
    ensures DecodeToken(s) == DecodeOnce(s)
  {
    if s == "" {
    } else if !StartsEscape(s[0], s[1..]) {
      TwoPassesAreOne(s[1..]);
      Unescaped(s[0], s[1..]);
      assert s == [s[0]] + s[1..];
    } else {
      TwoPassesAreOne(s[2..]);
      EscapedSlash(s[2..]);
      EscapedTilde(s[2..]);
      assert s == [s[0], s[1]] + s[2..];
    }
  }

  lemma {:induction false} DecodeInvertsEncode(t: string)
    ensures DecodeToken(EncodeToken(t)) == t
    ensures '/' !in EncodeToken(t)
  {
    TwoPassesAreOne(EncodeToken(t));
    if t == "" {
    } else {
      DecodeInvertsEncode(t[1..]);
      TwoPassesAreOne(EncodeToken(t[1..]));
      var rest := EncodeToken(t[1..]);
      assert ("~0" + rest)[2..] == rest && ("~1" + rest)[2..] == rest && ([t[0]] + rest)[1..] == rest;
      assert t == [t[0]] + t[1..];
    }
  }

  // ---- Splitting a pointer ----

  /** s.split("/"). */
  function Split(s: string): (r: seq<string>)
    ensures r != []
  {
    if s == "" then [""]
    else if s[0] == '/' then [""] + Split(s[1..])
    else var rest := Split(s[1..]); [[s[0]] + rest[0]] + rest[1..]
  }

  /** The decoded reference tokens of a non-empty pointer; what precedes its first slash is ignored. */
  function Tokens(pointer: string): seq<string> {
    DecodeAll(Split(pointer)[1..])
  }

  function DecodeAll(tokens: seq<string>): (r: seq<string>)
    ensures |r| == |tokens|
  {
    seq(|tokens|, i requires 0 <= i < |tokens| => DecodeToken(tokens[i]))
  }

  lemma {:induction false} SplitAfterToken(t: string, rest: string)
    requires '/' !in t
    ensures Split(t + "/" + rest) == [t] + Split(rest)
  {
    if t == "" {
      assert t + "/" + rest == "/" + rest;
      assert ("/" + rest)[1..] == rest;
    } else {
      SplitAfterToken(t[1..], rest);
      assert (t + "/" + rest)[1..] == t[1..] + "/" + rest;
      assert t == [t[0]] + t[1..];
    }
  }

  lemma {:induction false} SplitOneToken(t: string)
    requires '/' !in t
    ensures Split(t) == [t]
  {
    if t == "" {
    } else {
      SplitOneToken(t[1..]);
      assert t == [t[0]] + t[1..];
    }
  }

  // ---- Resolution ----

  function StepInto(current: Json, token: string): Option<Json> {
    match current
    case Arr(items) =>
      if IsCanonical(token) && Value(token) < |items| then Some(items[Value(token)]) else None
    case Obj(fields) => Field(fields, token)
    case _ => None
  }

  function Walk(current: Json, tokens: seq<string>): Option<Json> {
    if tokens == [] then Some(current) else
    match StepInto(current, tokens[0])
    case None => None
    case Some(next) => Walk(next, tokens[1..])
  }

  function Resolve(document: Json, pointer: string): Option<Json> {
    if pointer == "" then Some(document) else Walk(document, Tokens(pointer))
  }

  method ResolvePointer(document: Json, pointer: string) returns (r: Option<Json>)
    ensures r == Resolve(document, pointer)
  {
    if pointer == "" {
      return Some(document);
    }
    var current := document;
    var rawTokens := Split(pointer)[1..];
    ghost var tokens := DecodeAll(rawTokens);
    for i := 0 to |rawTokens|
      invariant Walk(current, tokens[i..]) == Walk(document, tokens)
    {
      assert tokens[i..][0] == tokens[i] && tokens[i..][1..] == tokens[i + 1..];
      var token := DecodeToken(rawTokens[i]);
      if current.Arr? {
        if !IsCanonical(token) || Value(token) >= |current.items| {
          return None;
        }
        current := current.items[Value(token)];
      } else if current.Obj? && token in current.fields {
        current := current.fields[token];
      } else {
        return None;
      }
    }
    return Some(current);
  }

  // ---- Paths: where a value is, without text ----

  datatype Step = Key(name: string) | Index(i: nat)

  function At(document: Json, path: seq<Step>): Option<Json> {
    if path == [] then Some(document) else
    match (document, path[0])
    case (Arr(items), Index(i)) => if i < |items| then At(items[i], path[1..]) else None
    case (Obj(fields), Key(name)) => if name in fields then At(fields[name], path[1..]) else None
    case _ => None
  }

  function TokenOf(step: Step): string {
    match step
    case Key(name) => name
    case Index(i) => Decimal(i)
  }

  function TokensOf(path: seq<Step>): (r: seq<string>)
    ensures |r| == |path|
  {
    if path == [] then [] else [TokenOf(path[0])] + TokensOf(path[1..])
  }

  function EncodeAll(tokens: seq<string>): (r: seq<string>)
    ensures |r| == |tokens|
  {
    seq(|tokens|, i requires 0 <= i < |tokens| => EncodeToken(tokens[i]))
  }

  function Join(tokens: seq<string>): string {
    if tokens == [] then "" else "/" + (tokens[0] + Join(tokens[1..]))
  }

  /** The JSON Pointer of a path. */
  function Print(path: seq<Step>): string {
    Join(EncodeAll(TokensOf(path)))
  }

  predicate Unsplit(tokens: seq<string>) {
    forall i :: 0 <= i < |tokens| ==> '/' !in tokens[i]
  }

  lemma {:induction false} SplitJoin(before: string, tokens: seq<string>)
    requires '/' !in before && Unsplit(tokens)
    ensures Split(before + Join(tokens)) == [before] + tokens
    decreases tokens
  {
    if tokens == [] {
      assert before + Join(tokens) == before;
      SplitOneToken(before);
    } else {
      var t, rest := tokens[0], tokens[1..];
      SplitJoin(t, rest);
      SplitAfterToken(before, t + Join(rest));
      assert before + Join(tokens) == before + "/" + (t + Join(rest));
      assert tokens == [t] + rest;
    }
  }

  lemma DecodeAllInvertsEncodeAll(tokens: seq<string>)
    ensures DecodeAll(EncodeAll(tokens)) == tokens && Unsplit(EncodeAll(tokens))
  {
    forall i | 0 <= i < |tokens|
      ensures DecodeToken(EncodeAll(tokens)[i]) == tokens[i] && '/' !in EncodeAll(tokens)[i]
    {
      DecodeInvertsEncode(tokens[i]);
    }
  }

  lemma TokensOfPrint(path: seq<Step>)
    requires path != []
    ensures Tokens(Print(path)) == TokensOf(path)
  {
    var encoded := EncodeAll(TokensOf(path));
    DecodeAllInvertsEncodeAll(TokensOf(path));
    SplitJoin("", encoded);
    assert "" + Print(path) == Print(path);
    assert ([""] + encoded)[1..] == encoded;
  }

  /** Exactly one token reaches element i of an array: its decimal. */
  lemma OneTokenPerElement(items: seq<Json>, token: string, i: nat)
    requires i < |items|
    ensures IsCanonical(token) && Value(token) == i <==> token == Decimal(i)
    ensures StepInto(Arr(items), Decimal(i)) == Some(items[i])
    ensures StepInto(Arr(items), token).Some? <==> exists j :: 0 <= j < |items| && token == Decimal(j)
  {
    DecimalIsCanonical(i);
    if IsCanonical(token) { CanonicalIsDecimal(token); }
    forall j | 0 <= j < |items| && token == Decimal(j)
      ensures IsCanonical(token) && Value(token) == j
    {
      DecimalIsCanonical(j);
    }
  }

  lemma {:induction false} WalkFollowsPath(document: Json, path: seq<Step>)
    requires At(document, path).Some?
    ensures Walk(document, TokensOf(path)) == At(document, path)
  {
    if path == [] {
    } else {
      match (document, path[0]) {
        case (Arr(items), Index(i)) =>
          DecimalIsCanonical(i);
          WalkFollowsPath(items[i], path[1..]);
        case (Obj(fields), Key(name)) =>
          WalkFollowsPath(fields[name], path[1..]);
      }
      assert TokensOf(path)[1..] == TokensOf(path[1..]);
    }
  }

  /** The pointer printed from any valid path resolves to the value at that path. */
  lemma PrintedPointerResolves(document: Json, path: seq<Step>)
    requires At(document, path).Some?
    ensures Resolve(document, Print(path)) == At(document, path)
  {
    if path != [] {
      TokensOfPrint(path);
      WalkFollowsPath(document, path);
    }
  }

  lemma {:induction false} WalkHasPath(document: Json, tokens: seq<string>) returns (path: seq<Step>)
    requires Walk(document, tokens).Some?
    ensures TokensOf(path) == tokens && At(document, path) == Walk(document, tokens)
  {
    if tokens == [] { return []; }
    var token := tokens[0];
    match document {
      case Arr(items) =>
        CanonicalIsDecimal(token);
        var rest := WalkHasPath(items[Value(token)], tokens[1..]);
        path := [Index(Value(token))] + rest;
        assert path[1..] == rest;
      case Obj(fields) =>
        var rest := WalkHasPath(fields[token], tokens[1..]);
        path := [Key(token)] + rest;
        assert path[1..] == rest;
    }
  }

  /** A pointer finds something exactly when some path of the document has its tokens, and then it finds that. */
  lemma ResolvesExactlyPaths(document: Json, pointer: string)
    requires pointer != ""
    ensures Resolve(document, pointer).Some? <==>
            exists path :: TokensOf(path) == Tokens(pointer) && At(document, path).Some?
    ensures forall path :: TokensOf(path) == Tokens(pointer) && At(document, path).Some? ==>
              Resolve(document, pointer) == At(document, path)
  {
    forall path | TokensOf(path) == Tokens(pointer) && At(document, path).Some?
      ensures Resolve(document, pointer) == At(document, path)
    {
      WalkFollowsPath(document, path);
    }
    if Resolve(document, pointer).Some? {
      var path := WalkHasPath(document, Tokens(pointer));
    }
  }

  lemma {:induction false} SameTokensSamePath(document: Json, p: seq<Step>, q: seq<Step>)
    requires At(document, p).Some? && At(document, q).Some? && TokensOf(p) == TokensOf(q)
    ensures p == q
  {
    if p == [] {
    } else {
      assert |p| == |TokensOf(p)| == |TokensOf(q)| == |q|;
      assert TokensOf(p)[1..] == TokensOf(p[1..]) && TokensOf(q)[1..] == TokensOf(q[1..]);
      assert TokenOf(p[0]) == TokensOf(p)[0] == TokensOf(q)[0] == TokenOf(q[0]);
      match document {
        case Arr(items) =>
          DecimalIsCanonical(p[0].i);
          DecimalIsCanonical(q[0].i);
          SameTokensSamePath(items[p[0].i], p[1..], q[1..]);
        case Obj(fields) =>
          SameTokensSamePath(fields[p[0].name], p[1..], q[1..]);
      }
      assert p == [p[0]] + p[1..] && q == [q[0]] + q[1..];
    }
  }

  /** No two places of a document share a pointer. */
  lemma PrintIsInjective(document: Json, p: seq<Step>, q: seq<Step>)
    requires At(document, p).Some? && At(document, q).Some? && Print(p) == Print(q)
    ensures p == q
  {
    if p != [] && q != [] {
      TokensOfPrint(p);
      TokensOfPrint(q);
      SameTokensSamePath(document, p, q);
    }
  }

  // ---- The condition ----

  datatype UntilError = NoSeparator | BadPointer | BadValue

  datatype Until = Condition(pointer: string, expected: Json) | Rejected(error: UntilError)

  /** raw.indexOf("="), None for -1. */
  function FirstEquals(raw: string): (r: Option<nat>)
    ensures r.Some? ==> r.value < |raw| && raw[r.value] == '=' && '=' !in raw[..r.value]
    ensures r.None? <==> '=' !in raw
  {
    if raw == "" then None
    else if raw[0] == '=' then Some(0)
    else
      assert raw == [raw[0]] + raw[1..];
      match FirstEquals(raw[1..])
      case None => None
      case Some(i) => assert raw[..i + 1] == [raw[0]] + raw[1..][..i]; Some(i + 1)
  }

  function ParseUntil(raw: string, parse: JsonParse): Until {
    match FirstEquals(raw)
    case None => Rejected(NoSeparator)
    case Some(i) =>
      var pointer := raw[..i];
      if pointer != "" && pointer[0] != '/' then Rejected(BadPointer) else
      match parse(raw[i + 1..])
      case None => Rejected(BadValue)
      case Some(expected) => Condition(pointer, expected)
  }

  function EvaluateUntil(c: Until, document: Json): bool
    requires c.Condition?
  {
    Resolve(document, c.pointer) == Some(c.expected)
  }

  datatype Evaluated = Evaluated(json: Option<Json>, matched: bool)

  /** A text that is not JSON matches nothing, not even an expected null. */
  function EvaluateSnapshot(c: Until, text: string, parse: JsonParse): Evaluated
    requires c.Condition?
  {
    match parse(text)
    case None => Evaluated(None, false)
    case Some(json) => Evaluated(Some(json), EvaluateUntil(c, json))
  }

  lemma FirstEqualsIs(pointer: string, text: string)
    ensures var i := FirstEquals(pointer + "=" + text);
            i.Some? && i.value <= |pointer| && (i.value == |pointer| <==> '=' !in pointer)
  {
    var raw := pointer + "=" + text;
    var i := FirstEquals(raw).value;
    assert raw[|pointer|] == '=';
    assert forall k :: 0 <= k < i ==> raw[..i][k] == raw[k];
    assert forall k :: 0 <= k < |pointer| ==> raw[k] == pointer[k];
    if i == |pointer| { assert raw[..i] == pointer; }
  }

  /** `<pointer of a path>=<value>` waits for that value at that path, exactly when no key on the path
      contains '='; such a key cannot be written, since the first '=' ends the pointer. */
  lemma UntilReachesPath(path: seq<Step>, text: string, expected: Json, parse: JsonParse, document: Json)
    requires parse(text) == Some(expected) && At(document, path).Some?
    ensures ParseUntil(Print(path) + "=" + text, parse) == Condition(Print(path), expected) <==> '=' !in Print(path)
    ensures '=' !in Print(path) ==>
              (EvaluateUntil(ParseUntil(Print(path) + "=" + text, parse), document) <==> At(document, path) == Some(expected))
  {
    var raw := Print(path) + "=" + text;
    FirstEqualsIs(Print(path), text);
    PrintedPointerResolves(document, path);
    var i := FirstEquals(raw).value;
    if i == |Print(path)| {
      assert raw[..i] == Print(path) && raw[i + 1..] == text;
    } else {
      assert |raw[..i]| != |Print(path)|;
    }
  }

  /** How a condition is taken apart: the first '=' ends the pointer, which is empty or starts with a slash; the rest is JSON. */
  lemma UntilIsParsedExactly(pointer: string, text: string, raw: string, parse: JsonParse)
    requires '=' !in pointer
    ensures ParseUntil(pointer + "=" + text, parse) ==
            if pointer != "" && pointer[0] != '/' then Rejected(BadPointer)
            else if parse(text).None? then Rejected(BadValue)
            else Condition(pointer, parse(text).value)
    ensures ParseUntil(raw, parse) == Rejected(NoSeparator) <==> '=' !in raw
  {
    FirstEqualsIs(pointer, text);
    var whole := pointer + "=" + text;
    assert whole[..|pointer|] == pointer && whole[|pointer| + 1..] == text;
  }

  /** The path is one that the pointer spells. */
  predicate Spells(pointer: string, path: seq<Step>) {
    if pointer == "" then path == [] else TokensOf(path) == Tokens(pointer)
  }

  /** The text is a document that holds the expected value at a path its JSON Pointer spells. */
  ghost predicate Shows(text: string, c: Until, parse: JsonParse)
    requires c.Condition?
  {
    && parse(text).Some?
    && exists path :: Spells(c.pointer, path) && At(parse(text).value, path) == Some(c.expected)
  }

  /** A snapshot carries its document and is matched exactly when it shows the value. */
  lemma SnapshotShows(c: Until, text: string, parse: JsonParse)
    requires c.Condition?
    ensures EvaluateSnapshot(c, text, parse).json == parse(text)
    ensures EvaluateSnapshot(c, text, parse).matched <==> Shows(text, c, parse)
  {
    if parse(text).Some? {
      var document := parse(text).value;
      if c.pointer == "" {
        assert Spells(c.pointer, []) && At(document, []) == Some(document);
      } else {
        ResolvesExactlyPaths(document, c.pointer);
      }
    }
  }

  /** For a condition written for a path: a text is matched exactly when it parses and holds the value at that path, or, if
      the document has no such path, at one that is printed alike. */
  lemma SnapshotOfPath(path: seq<Step>, value: string, expected: Json, text: string, parse: JsonParse)
    requires parse(value) == Some(expected) && '=' !in Print(path)
    ensures var c := ParseUntil(Print(path) + "=" + value, parse);
            && c == Condition(Print(path), expected)
            && var matched := EvaluateSnapshot(c, text, parse).matched;
               && (parse(text).None? ==> !matched)
               && (parse(text).Some? && At(parse(text).value, path).Some? ==> (matched <==> At(parse(text).value, path) == Some(expected)))
               && (matched <==> parse(text).Some? && exists q :: Print(q) == Print(path) && At(parse(text).value, q) == Some(expected))
  {
    var c := Condition(Print(path), expected);
    PrintStartsWithSlash(path);
    UntilIsParsedExactly(Print(path), value, "", parse);
    SnapshotShows(c, text, parse);
    if parse(text).Some? {
      var document := parse(text).value;
      forall q | At(document, q) == Some(expected) ensures Spells(c.pointer, q) <==> Print(q) == Print(path) {
        SpelledIsPrinted(path, q);
      }
      if At(document, path).Some? { PrintedPointerResolves(document, path); }
    }
  }

  lemma PrintStartsWithSlash(path: seq<Step>)
    ensures Print(path) == "" <==> path == []
    ensures path != [] ==> Print(path)[0] == '/'
  {
  }

  /** A path is spelled by another's pointer exactly if it prints alike. */
  lemma SpelledIsPrinted(path: seq<Step>, q: seq<Step>)
    ensures Spells(Print(path), q) <==> Print(q) == Print(path)
  {
    PrintStartsWithSlash(path);
    PrintStartsWithSlash(q);
    if path != [] {
      TokensOfPrint(path);
      if q != [] { TokensOfPrint(q); }
    }
  }
}
