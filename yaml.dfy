/** The frontmatter dialect of `src/harp.ts`: `parseYamlValue` (the scalar
    coercion table) and `parseFrontmatterYaml` (a line-by-line parser that
    keeps a current key, an open array and the indentation that opened it). */
module Yaml {
  import opened Wrappers
  import opened Strings

  /** What the dialect decodes a value to. A float is kept as its token. */
  datatype YamlValue =
    | YNull
    | YBool(b: bool)
    | YInt(n: int)
    | YFloat(token: string)
    | YStr(s: string)
    | YList(items: seq<YamlValue>)

  /** `/^\d+\.\d+$/` */
  predicate IsFloatToken(v: string) {
    var k := LeadingDigits(v);
    0 < k && k + 1 < |v| && v[k] == '.' && AllDigits(v[k + 1..])
  }

  predicate IsQuoted(v: string) {
    (StartsWith(v, "\"") && EndsWith(v, "\"")) || (StartsWith(v, "'") && EndsWith(v, "'"))
  }

  /** `value.slice(1, -1)` */
  function Unquote(v: string): string {
    if |v| < 2 then "" else v[1..|v| - 1]
  }

  /** `parseYamlValue`: the fixed coercion table. */
  function ParseYamlValue(value: string): (r: YamlValue)
    ensures !r.YList?
    ensures r.YNull? <==> value == "null" || value == "~"
    ensures r.YBool? <==> value == "true" || value == "false"
    ensures r.YInt? <==> |value| > 0 && AllDigits(value)
    ensures r.YInt? ==> r.n == DigitsValue(value)
    ensures r.YStr? ==> r.s == (if IsQuoted(value) then Unquote(value) else value)
  {
    if value == "null" || value == "~" then
      assert !IsDigit(value[0]);
      YNull
    else if value == "true" || value == "false" then
      assert !IsDigit(value[0]);
      YBool(value == "true")
    else if |value| > 0 && AllDigits(value) then YInt(DigitsValue(value))
    else if IsFloatToken(value) then YFloat(value)
    else if IsQuoted(value) then YStr(Unquote(value))
    else YStr(value)
  }

  /** A double-quoted scalar decodes to the text between the quotes, whatever
      that text looks like. */
  lemma QuotedScalar(s: string)
    ensures ParseYamlValue("\"" + s + "\"") == YStr(s)
  {
    var v := "\"" + s + "\"";
    assert v[0] == '"';
    assert !AllDigits(v);
    assert LeadingDigits(v) == 0;
    assert v[1..|v| - 1] == s;
  }

  /** A value that starts with a letter other than a keyword's, or with `[`,
      is kept as the bare string: flow lists such as `["a", "b"]` and
      `key: "value"` list items are not decoded further. */
  lemma BareScalar(v: string)
    requires |v| > 0 && (v[0] == '[' || ('a' <= v[0] <= 'z' && v[0] !in {'n', 't', 'f'}))
    ensures ParseYamlValue(v) == YStr(v)
  {
    assert !AllDigits(v);
    assert LeadingDigits(v) == 0;
  }

  /** JavaScript's truthiness of a decoded value. */
  predicate Truthy(v: YamlValue) {
    match v
    case YNull => false
    case YBool(b) => b
    case YInt(n) => n != 0
    case YFloat(t) => exists i :: 0 <= i < |t| && '1' <= t[i] <= '9'
    case YStr(s) => s != ""
    case YList(_) => true
  }

  /** `String(v)`; a float is rendered as its token. */
  function JsString(v: YamlValue): string
    decreases v
  {
    match v
    case YNull => "null"
    case YBool(b) => if b then "true" else "false"
    case YInt(n) => IntString(n)
    case YFloat(t) => t
    case YStr(s) => s
    case YList(items) => JoinItems(items)
  }

  /** `Array.prototype.toString`: items joined by commas, `null` as "". */
  function JoinItems(items: seq<YamlValue>): string
    decreases items
  {
    if |items| == 0 then ""
    else
      var first := if items[0].YNull? then "" else JsString(items[0]);
      if |items| == 1 then first else first + "," + JoinItems(items[1..])
  }

  // ---------------------------------------------------------------------------
  // parseFrontmatterYaml

  /** The parser's variables after some lines: `result`, `currentKey`, the
      contents of `currentArray` (None for `null`) and `indent`. The array the
      source keeps in `currentArray` is the one stored under `currentKey`
      (see `AliasingKept`), so a push is modelled as rewriting that entry. */
  datatype ParserState = ParserState(
    result: map<string, YamlValue>,
    currentKey: string,
    currentArray: Option<seq<YamlValue>>,
    indent: int)

  const Start := ParserState(map[], "", None, 0)

  /** `line.length - line.trimStart().length` */
  function LineIndent(line: string): nat {
    LeadingSpaces(line)
  }

  /** A `- item` line: the decoded item is pushed onto the open array, and
      dropped when no array is open. */
  function PushItem(st: ParserState, item: string): ParserState {
    match st.currentArray
    case None => st
    case Some(items) =>
      var items' := items + [ParseYamlValue(item)];
      st.(result := st.result[st.currentKey := YList(items')], currentArray := Some(items'))
  }

  /** A `key: value` line indented by `lineIndent`: an empty value or `|`
      opens an array under the key; a line indented under an open array is
      skipped; any other line sets the key and closes the array. */
  function KeyValue(st: ParserState, key: string, value: string, lineIndent: nat): ParserState {
    if value == "" || value == "|" then
      ParserState(st.result[key := YList([])], key, Some([]), lineIndent)
    else if st.currentArray.Some? && lineIndent > st.indent then
      st
    else
      st.(result := st.result[key := ParseYamlValue(value)], currentArray := None)
  }

  /** One iteration of the parser's loop. */
  function ParseLine(st: ParserState, line: string): ParserState {
    LineStep(st, Trim(line), LineIndent(line))
  }

  /** The loop body on the trimmed line, given the line's indentation:
      blank lines and comments are skipped, `- ` starts an array item, and
      a colon after at least one character separates a key from its value. */
  function LineStep(st: ParserState, trimmed: string, lineIndent: nat): ParserState {
    if trimmed == [] || StartsWith(trimmed, "#") then st
    else if StartsWith(trimmed, "- ") then PushItem(st, Trim(trimmed[2..]))
    else
      match IndexOf(trimmed, ":")
      case None => st
      case Some(colon) =>
        if colon == 0 then st
        else KeyValue(st, Trim(trimmed[..colon]), Trim(trimmed[colon + 1..]), lineIndent)
  }

  function ParseLines(lines: seq<string>): ParserState {
    if |lines| == 0 then Start else ParseLine(ParseLines(lines[..|lines| - 1]), lines[|lines| - 1])
  }

  /** What `parseFrontmatterYaml(yaml)` returns. */
  function ParseYaml(yaml: string): map<string, YamlValue> {
    ParseLines(Split(yaml, "\n")).result
  }

  /** The open array is always the one stored under the current key. */
  predicate Aliased(st: ParserState) {
    st.currentArray.Some? ==> st.currentKey in st.result && st.result[st.currentKey] == YList(st.currentArray.value)
  }

  lemma {:induction false} AliasingKept(lines: seq<string>)
    ensures Aliased(ParseLines(lines))
  {
    if |lines| > 0 {
      var line := lines[|lines| - 1];
      AliasingKept(lines[..|lines| - 1]);
      AliasedStep(ParseLines(lines[..|lines| - 1]), Trim(line), LineIndent(line));
    }
  }

  lemma AliasedStep(st: ParserState, trimmed: string, lineIndent: nat)
    requires Aliased(st)
    ensures Aliased(LineStep(st, trimmed, lineIndent))
  {
  }

  /** `parseFrontmatterYaml`. */
  method ParseFrontmatterYaml(yaml: string) returns (result: map<string, YamlValue>)
    ensures result == ParseYaml(yaml)
  {
    result := map[];
    var lines := Split(yaml, "\n");
    var currentKey := "";
    var currentArray: Option<seq<YamlValue>> := None;
    var indent := 0;

    for i := 0 to |lines|
      invariant ParserState(result, currentKey, currentArray, indent) == ParseLines(lines[..i])
    {
      var line := lines[i];
      assert lines[..i + 1][..i] == lines[..i];
      ghost var before := ParserState(result, currentKey, currentArray, indent);
      assert ParseLines(lines[..i + 1]) == ParseLine(before, line);
      var trimmed := Trim(line);
      if trimmed == [] || StartsWith(trimmed, "#") {
        continue;
      }

      // Array item
      if StartsWith(trimmed, "- ") {
        if currentArray.Some? {
          var value := Trim(trimmed[2..]);
          currentArray := Some(currentArray.value + [ParseYamlValue(value)]);
          result := result[currentKey := YList(currentArray.value)];
        }
        continue;
      }

      // Key-value pair
      var colonIdx := IndexOf(trimmed, ":");
      if colonIdx.Some? && colonIdx.value > 0 {
        var key := Trim(trimmed[..colonIdx.value]);
        var value := Trim(trimmed[colonIdx.value + 1..]);
        var lineIndent := LineIndent(line);
        if value == "" || value == "|" {
          currentKey := key;
          currentArray := Some([]);
          result := result[key := YList(currentArray.value)];
          indent := lineIndent;
        } else {
          if currentArray.Some? && lineIndent > indent {
            continue;
          }
          currentArray := None;
          result := result[key := ParseYamlValue(value)];
        }
      }
    }
    assert lines[..|lines|] == lines;
  }
}
