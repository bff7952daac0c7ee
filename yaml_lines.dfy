/** How the frontmatter dialect of `src/harp.ts` reads the kinds of line its
    own writers produce: a `key: value` line, a `key:` line that opens a
    list, and a `- item` line. `Known` tracks what the parser has stored
    under some keys while further lines go by, which is how the writers'
    round trips are proved. */
module YamlLines {
  import opened Wrappers
  import opened Strings
  import opened Yaml

  /** What is known of the parser's entries, key by key. */
  type Knowledge = map<string, Option<YamlValue>>

  /** Text split on line breaks, when the pieces hold none, gives the pieces back. */
  lemma {:induction false} SplitJoinLines(lines: seq<string>)
    requires |lines| > 0
    requires forall i :: 0 <= i < |lines| ==> '\n' !in lines[i]
    ensures Split(Join(lines, "\n"), "\n") == lines
  {
    assert "\n" == ['\n'];
    if |lines| == 1 {
      SplitNoChar(lines[0], '\n');
    } else {
      var rest := lines[1..];
      SplitJoinLines(rest);
      JoinCons(lines[0], rest, "\n");
      assert lines == [lines[0]] + rest;
      SplitAtChar(lines[0], '\n', Join(rest, "\n"));
    }
  }

  /** The parser reads one more line after those it has read. */
  lemma ParseLinesSnoc(lines: seq<string>, line: string)
    ensures ParseLines(lines + [line]) == ParseLine(ParseLines(lines), line)
  {
    assert (lines + [line])[..|lines|] == lines;
  }

  /** Indentation made of blanks. */
  predicate Blanks(sp: string) {
    forall i :: 0 <= i < |sp| ==> sp[i] == ' '
  }

  /** A key as the writers spell it: a word with no colon, no white space at
      its ends, and no `#` or `-` in front. */
  predicate GoodKey(key: string) {
    Unpadded(key) && ':' !in key && key[0] != '#' && key[0] != '-'
  }

  /** Blank indentation before a non-blank start is dropped, and so is
      nothing at the end of a string that does not end in white space; the
      indentation is the number of blanks. */
  lemma TrimIndented(sp: string, s: string)
    requires Blanks(sp) && Unpadded(s)
    ensures Trim(sp + s) == s && LineIndent(sp + s) == |sp|
  {
    TrimStartDropsLeadingSpace(sp, s);
    TrimEndOfUnpadded(s);
    var line := sp + s;
    assert line[|sp|] == s[0];
    LeadingSpacesAtLeast(line, |sp|);
    LeadingSpacesAtMost(line, |sp|);
  }

  /** The first colon of `key: value` is the one after the key. */
  lemma ColonAfterKey(key: string, rest: string)
    requires ':' !in key
    ensures IndexOf(key + ":" + rest, ":") == Some(|key|)
  {
    var t := key + ":" + rest;
    forall j | 0 <= j < |key|
      ensures !OccursAt(t, ":", j)
    {
      assert t[j..j + 1][0] == key[j] && key[j] in key;
    }
    assert t[|key|..|key| + 1] == ":";
    IndexOfFromIs(t, ":", 0, |key|);
  }

  /** `key: value` indented by blanks sets or skips the key as `KeyValue` says. */
  lemma KeyLine(st: ParserState, line: string, sp: string, key: string, value: string)
    requires Blanks(sp) && GoodKey(key) && Unpadded(value)
    requires line == sp + key + ": " + value
    ensures ParseLine(st, line) == KeyValue(st, key, value, |sp|)
  {
    KeyLineTrimmed(sp, key, value);
    TrimIndented(" ", value);
    KeyStep(st, key, " " + value, value, |sp|);
  }

  lemma KeyLineTrimmed(sp: string, key: string, value: string)
    requires Blanks(sp) && GoodKey(key) && Unpadded(value)
    ensures var line := sp + key + ": " + value;
      Trim(line) == key + ":" + (" " + value) && LineIndent(line) == |sp|
  {
    var t := key + ":" + (" " + value);
    assert sp + key + ": " + value == sp + t;
    assert t[0] == key[0] && t[|t| - 1] == value[|value| - 1];
    TrimIndented(sp, t);
  }

  /** A `key: value` line once trimmed. */
  lemma KeyStep(st: ParserState, key: string, rest: string, value: string, lineIndent: nat)
    requires GoodKey(key) && Trim(rest) == value
    ensures LineStep(st, key + ":" + rest, lineIndent) == KeyValue(st, key, value, lineIndent)
  {
    var t := key + ":" + rest;
    assert t != [] && !StartsWith(t, "#") && !StartsWith(t, "- ") by {
      assert t[0] == key[0];
    }
    ColonAfterKey(key, rest);
    assert t[..|key|] == key && t[|key| + 1..] == rest;
    TrimOfUnpadded(key);
  }

  /** A `key:` line indented by blanks opens an empty array under the key. */
  lemma OpenLine(st: ParserState, line: string, sp: string, key: string)
    requires Blanks(sp) && GoodKey(key)
    requires line == sp + key + ":"
    ensures ParseLine(st, line) == ParserState(st.result[key := YList([])], key, Some([]), |sp|)
  {
    var t := key + ":";
    assert line == sp + t;
    assert t[0] == key[0] && t[|t| - 1] == ':';
    TrimIndented(sp, t);
    assert key + ":" + "" == t;
    KeyStep(st, key, "", "", |sp|);
  }

  /** A `- item` line indented by blanks pushes the decoded item. */
  lemma ItemLine(st: ParserState, line: string, sp: string, item: string)
    requires Blanks(sp) && Unpadded(item)
    requires line == sp + "- " + item
    ensures ParseLine(st, line) == PushItem(st, item)
  {
    var t := "- " + item;
    assert line == sp + t;
    assert t[0] == '-' && t[|t| - 1] == item[|item| - 1];
    TrimIndented(sp, t);
    ItemStep(st, item, |sp|);
  }

  /** A `- item` line once trimmed. */
  lemma ItemPrefix(item: string)
    requires Unpadded(item)
    ensures var t := "- " + item;
      t != [] && !StartsWith(t, "#") && StartsWith(t, "- ") && Trim(t[2..]) == item
  {
    var t := "- " + item;
    assert t[0] == '-' && t[..2] == "- " && t[2..] == item;
    assert t[..1] != "#";
    TrimOfUnpadded(item);
  }

  lemma ItemStep(st: ParserState, item: string, lineIndent: nat)
    requires Unpadded(item)
    ensures LineStep(st, "- " + item, lineIndent) == PushItem(st, item)
  {
    ItemPrefix(item);
  }

  /** An empty line changes nothing. */
  lemma EmptyLine(st: ParserState)
    ensures ParseLine(st, "") == st
  {
  }

  /** What is known of the parser's entries: under each key of `known`, the
      value it holds (`Some`) or the absence of an entry (`None`). The
      indentation is never negative. */
  predicate Known(st: ParserState, known: Knowledge) {
    && (forall k :: k in known ==>
          if known[k].Some? then k in st.result && st.result[k] == known[k].value else k !in st.result)
    && st.indent >= 0
  }

  /** No array is open under a known key, so an item cannot change one. */
  predicate Free(st: ParserState, known: Knowledge) {
    st.currentArray.Some? ==> st.currentKey !in known
  }

  /** Nothing is stored before the first line. */
  lemma KnownAtStart()
    ensures Known(Start, map[]) && Free(Start, map[])
  {
  }

  /** An item pushed while no known key is open changes no known entry. */
  lemma KnownPush(st: ParserState, item: string, known: Knowledge)
    requires Known(st, known) && Free(st, known)
    ensures Known(PushItem(st, item), known) && Free(PushItem(st, item), known)
  {
  }

  /** A line about another key keeps what is known; it leaves no known key
      open unless the key that was open stays open. */
  lemma KnownOther(st: ParserState, key: string, value: string, lineIndent: nat,
                   known: Knowledge)
    requires Known(st, known) && key !in known
    ensures var st' := KeyValue(st, key, value, lineIndent);
      && Known(st', known)
      && (Free(st, known) || lineIndent == 0 || value == "" ==> Free(st', known))
  {
  }

  /** A `key: value` line at the left margin sets the key and closes any
      open array. */
  lemma KnownSet(st: ParserState, key: string, value: string, known: Knowledge)
    requires Known(st, known) && value != "" && value != "|"
    ensures var st' := KeyValue(st, key, value, 0);
      && Known(st', known[key := Some(ParseYamlValue(value))])
      && st'.currentArray.None?
  {
  }

  /** The array under the open key is complete: it joins what is known. */
  lemma KnownClose(st: ParserState, known: Knowledge)
    requires Known(st, known) && Aliased(st) && st.currentArray.Some?
    ensures Known(st, known[st.currentKey := Some(YList(st.currentArray.value))])
  {
  }

  /** Knowing less. */
  lemma KnownLess(st: ParserState, known: Knowledge, key: string)
    requires Known(st, known)
    ensures Known(st, known - {key}) && (Free(st, known) ==> Free(st, known - {key}))
  {
  }

  /** What is known, with no known key left open. */
  predicate Reads(st: ParserState, known: Knowledge) {
    Known(st, known) && Free(st, known)
  }

  /** Reading one more line: the state after the lines is the state after
      the one line. */
  lemma ReadsSnoc(pre: seq<string>, line: string, known: Knowledge)
    requires Reads(ParseLine(ParseLines(pre), line), known)
    ensures Reads(ParseLines(pre + [line]), known)
  {
    ParseLinesSnoc(pre, line);
  }

  /** `line` is `key: value` indented by `sp`, as the writers spell it. */
  predicate KeyShape(line: string, sp: string, key: string, value: string) {
    Blanks(sp) && GoodKey(key) && Unpadded(value) && line == sp + key + ": " + value
  }

  /** `line` is `key:` indented by `sp`. */
  predicate OpenShape(line: string, sp: string, key: string) {
    Blanks(sp) && GoodKey(key) && line == sp + key + ":"
  }

  /** `line` is `- item` indented by `sp`. */
  predicate ItemShape(line: string, sp: string, item: string) {
    Blanks(sp) && Unpadded(item) && line == sp + "- " + item
  }

  /** `key: value` at the left margin stores the decoded value under the key. */
  lemma SetStep(st: ParserState, line: string, key: string, value: string, known: Knowledge)
    requires Known(st, known) && KeyShape(line, "", key, value) && value != "|"
    ensures Reads(ParseLine(st, line), known[key := Some(ParseYamlValue(value))])
  {
    KeyLine(st, line, "", key, value);
    KnownSet(st, key, value, known);
  }

  /** An indented `key: value` line about a key that is not known keeps what
      is known. */
  lemma OtherStep(st: ParserState, line: string, sp: string, key: string, value: string,
                  known: Knowledge)
    requires Reads(st, known) && KeyShape(line, sp, key, value) && key !in known
    ensures Reads(ParseLine(st, line), known)
  {
    KeyLine(st, line, sp, key, value);
    KnownOther(st, key, value, |sp|, known);
  }

  /** A `key:` line under a key that is not known opens a list nobody knows. */
  lemma OpenStep(st: ParserState, line: string, sp: string, key: string, known: Knowledge)
    requires Known(st, known) && OpenShape(line, sp, key) && key !in known
    ensures Reads(ParseLine(st, line), known)
  {
    OpenLine(st, line, sp, key);
    KnownOther(st, key, "", |sp|, known);
  }

  /** A `- item` line while no known key is open keeps what is known. */
  lemma PushStep(st: ParserState, line: string, sp: string, item: string, known: Knowledge)
    requires Reads(st, known) && ItemShape(line, sp, item)
    ensures Reads(ParseLine(st, line), known)
  {
    ItemLine(st, line, sp, item);
    KnownPush(st, item, known);
  }

  // ---------------------------------------------------------------------------
  // After the lines read so far

  /** A `key: value` line at the left margin. */
  lemma SetLine(pre: seq<string>, line: string, key: string, value: string, v: YamlValue, known: Knowledge)
    requires Known(ParseLines(pre), known) && KeyShape(line, "", key, value) && value != "|"
    requires ParseYamlValue(value) == v
    ensures Reads(ParseLines(pre + [line]), known[key := Some(v)])
  {
    SetStep(ParseLines(pre), line, key, value, known);
    ReadsSnoc(pre, line, known[key := Some(v)]);
  }

  /** An indented `key: value` line about a key that is not known. */
  lemma OtherLine(pre: seq<string>, line: string, sp: string, key: string, value: string, known: Knowledge)
    requires Reads(ParseLines(pre), known) && KeyShape(line, sp, key, value) && key !in known
    ensures Reads(ParseLines(pre + [line]), known)
  {
    OtherStep(ParseLines(pre), line, sp, key, value, known);
    ReadsSnoc(pre, line, known);
  }

  /** A `key:` line opening a list under a key that is not known. */
  lemma OpenKeyLine(pre: seq<string>, line: string, sp: string, key: string, known: Knowledge)
    requires Known(ParseLines(pre), known) && OpenShape(line, sp, key) && key !in known
    ensures Reads(ParseLines(pre + [line]), known)
  {
    OpenStep(ParseLines(pre), line, sp, key, known);
    ReadsSnoc(pre, line, known);
  }

  /** A `- item` line while no known key is open. */
  lemma ItemOf(pre: seq<string>, line: string, sp: string, item: string, known: Knowledge)
    requires Reads(ParseLines(pre), known) && ItemShape(line, sp, item)
    ensures Reads(ParseLines(pre + [line]), known)
  {
    PushStep(ParseLines(pre), line, sp, item, known);
    ReadsSnoc(pre, line, known);
  }

  /** The empty first line leaves the parser where it starts. */
  lemma EmptyFirst()
    ensures ParseLines([""]) == Start
  {
    var p0: seq<string> := [""];
    assert p0[..0] == [];
    EmptyLine(Start);
  }

  /** An empty last line changes nothing. */
  lemma EmptyLast(pre: seq<string>, known: Knowledge)
    requires Known(ParseLines(pre), known)
    ensures Known(ParseLines(pre + [""]), known)
  {
    ParseLinesSnoc(pre, "");
    EmptyLine(ParseLines(pre));
  }

  /** A `key: value` line at the left margin when `write` holds, nothing
      otherwise: the key, absent before, holds the decoded value or stays
      absent. */
  lemma MaybeSetLine(pre: seq<string>, write: bool, line: string, key: string, value: string,
                     v: Option<YamlValue>, known: Knowledge)
    requires Known(ParseLines(pre), known) && key in known && known[key].None?
    requires write <==> v.Some?
    requires write ==> KeyShape(line, "", key, value) && value != "|" && ParseYamlValue(value) == v.value
    ensures Known(ParseLines(if write then pre + [line] else pre), known[key := v])
  {
    if write {
      SetLine(pre, line, key, value, v.value, known);
    }
  }

  // ---------------------------------------------------------------------------
  // A list being read

  /** The list under `key` is open and holds `items`, and the other keys are
      as `known` says. */
  predicate Listing(st: ParserState, key: string, items: seq<YamlValue>, known: Knowledge) {
    && Known(st, known) && key !in known
    && st.currentKey == key && st.currentArray == Some(items)
    && key in st.result && st.result[key] == YList(items)
  }

  /** `key:` at the left margin opens an empty list under the key. */
  lemma ListOpenLine(pre: seq<string>, line: string, key: string, known: Knowledge)
    requires Known(ParseLines(pre), known) && OpenShape(line, "", key) && key !in known
    ensures Listing(ParseLines(pre + [line]), key, [], known)
  {
    ParseLinesSnoc(pre, line);
    OpenLine(ParseLines(pre), line, "", key);
    KnownOther(ParseLines(pre), key, "", 0, known);
  }

  /** `- item` adds the decoded item to the open list. */
  lemma ListItemLine(pre: seq<string>, line: string, sp: string, item: string, key: string,
                     items: seq<YamlValue>, known: Knowledge)
    requires Listing(ParseLines(pre), key, items, known) && ItemShape(line, sp, item)
    ensures Listing(ParseLines(pre + [line]), key, items + [ParseYamlValue(item)], known)
  {
    ParseLinesSnoc(pre, line);
    ItemLine(ParseLines(pre), line, sp, item);
    KnownPush(ParseLines(pre), item, known);
  }

  /** The open list, complete, joins what is known. */
  lemma ListClose(st: ParserState, key: string, items: seq<YamlValue>, known: Knowledge)
    requires Listing(st, key, items, known)
    ensures Known(st, known[key := Some(YList(items))])
  {
  }
}
