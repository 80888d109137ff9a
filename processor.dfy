/**
 * `FrontmatterProcessor`: serialising a `NoteFrontmatter` record as a YAML
 * header and writing it at the head of a note.
 *
 * The strip step of `updateFrontmatter` is the regular expression
 * `/^---\n.*?\n---\n/s` replaced by the empty string. It is modelled by an
 * explicit scanner: the note must start with `---\n`, and the block ends at
 * the FIRST `\n---\n` that begins at index 4 or later (the lazy `.*?`, whose
 * `s` flag lets it cross newlines). `MatchesBlock` states the regular
 * expression itself, and the scanner is proved to find the shortest prefix
 * it matches.
 */
module FrontmatterProcessor {
  import opened Wrappers
  import opened Types
  import opened Text
  import opened Obsidian

  // ---------------------------------------------------------------------
  // generateYaml

  /** `${data.automove}` for the literal type `0 | 1`. */
  function AutomoveText(b: Bit): string
  {
    if b == 0 then "0" else "1"
  }

  /** Five `key: value` lines joined by `\n`, with no trailing newline and no escaping. */
  function GenerateYaml(data: NoteFrontmatter): string
  {
    Join([
      "folder: \"" + data.folder + "\"",
      "tags: [" + Join(data.tags, ", ") + "]",
      "automove: " + AutomoveText(data.automove),
      "created: \"" + data.created + "\"",
      "modified: \"" + data.modified + "\""
    ], "\n")
  }

  /** No field value carries a line break of its own. */
  predicate NoNewlines(d: NoteFrontmatter)
  {
    '\n' !in d.folder && '\n' !in d.created && '\n' !in d.modified &&
    forall i :: 0 <= i < |d.tags| ==> '\n' !in d.tags[i]
  }

  /**
   * The records whose header can be read back: no line breaks, no comma in
   * a tag (the list separator is not escaped), and not the single empty
   * tag (which prints like the empty list).
   */
  predicate Printable(d: NoteFrontmatter)
  {
    NoNewlines(d) && d.tags != [""] &&
    forall i :: 0 <= i < |d.tags| ==> ',' !in d.tags[i]
  }

  /** The header spelled out line by line. */
  lemma YamlText(d: NoteFrontmatter)
    ensures GenerateYaml(d) ==
      ("folder: \"" + d.folder + "\"") + "\n" +
      ("tags: [" + Join(d.tags, ", ") + "]") + "\n" +
      ("automove: " + AutomoveText(d.automove)) + "\n" +
      ("created: \"" + d.created + "\"") + "\n" +
      ("modified: \"" + d.modified + "\"")
  {
    var l1, l2, l3, l4, l5 :=
      "folder: \"" + d.folder + "\"",
      "tags: [" + Join(d.tags, ", ") + "]",
      "automove: " + AutomoveText(d.automove),
      "created: \"" + d.created + "\"",
      "modified: \"" + d.modified + "\"";
    assert Join([l5], "\n") == l5;
    assert Join([l4, l5], "\n") == l4 + "\n" + l5 by { assert [l4, l5][1..] == [l5]; }
    assert Join([l3, l4, l5], "\n") == l3 + "\n" + (l4 + "\n" + l5) by { assert [l3, l4, l5][1..] == [l4, l5]; }
    assert Join([l2, l3, l4, l5], "\n") == l2 + "\n" + (l3 + "\n" + (l4 + "\n" + l5)) by {
      assert [l2, l3, l4, l5][1..] == [l3, l4, l5];
    }
    assert Join([l1, l2, l3, l4, l5], "\n") == l1 + "\n" + (l2 + "\n" + (l3 + "\n" + (l4 + "\n" + l5))) by {
      assert [l1, l2, l3, l4, l5][1..] == [l2, l3, l4, l5];
    }
  }

  /**
   * When no value holds a line break, the header is exactly five lines, in
   * the order folder, tags, automove, created, modified; strings are quoted
   * verbatim, tags are a bracketed `, `-separated list, automove is a bare digit.
   */
  lemma FiveLines(d: NoteFrontmatter)
    requires NoNewlines(d)
    ensures SplitOn(GenerateYaml(d), "\n") == [
      "folder: \"" + d.folder + "\"",
      "tags: [" + Join(d.tags, ", ") + "]",
      "automove: " + AutomoveText(d.automove),
      "created: \"" + d.created + "\"",
      "modified: \"" + d.modified + "\""
    ]
  {
    NotInJoin(d.tags, ", ", '\n');
    var ls := [
      "folder: \"" + d.folder + "\"",
      "tags: [" + Join(d.tags, ", ") + "]",
      "automove: " + AutomoveText(d.automove),
      "created: \"" + d.created + "\"",
      "modified: \"" + d.modified + "\""
    ];
    assert forall i :: 0 <= i < |ls| ==> "\n"[0] !in ls[i];
    SplitJoin(ls, "\n");
  }

  /**
   * The header ends with the `modified` line itself: the last character is
   * its closing quote, not a newline, and a newline precedes the line.
   */
  lemma EndsWithModifiedLine(d: NoteFrontmatter)
    ensures var y := GenerateYaml(d);
      var last := "modified: \"" + d.modified + "\"";
      |y| > |last| && y[|y| - |last|..] == last && y[|y| - |last| - 1] == '\n' && y[|y| - 1] == '"'
  {
    YamlText(d);
  }

  // ---------------------------------------------------------------------
  // Reading a generated header back (the inverse used to state that the
  // serialisation loses nothing for printable records)

  /** `key"value"` with the prefix `key"` and the last quote removed. */
  function Quoted(line: string, key: string): Option<string>
  {
    var p := key + "\"";
    if |line| >= |p| + 1 && line[..|p|] == p && line[|line| - 1] == '"'
    then Some(line[|p|..|line| - 1])
    else None
  }

  function TagList(line: string): Option<seq<string>>
  {
    var p := "tags: [";
    if |line| >= |p| + 1 && line[..|p|] == p && line[|line| - 1] == ']'
    then
      var inner := line[|p|..|line| - 1];
      Some(if inner == "" then [] else SplitOn(inner, ", "))
    else None
  }

  function AutomoveFlag(line: string): Option<Bit>
  {
    if line == "automove: 0" then Some(0)
    else if line == "automove: 1" then Some(1)
    else None
  }

  function ReadYaml(y: string): Option<NoteFrontmatter>
  {
    var ls := SplitOn(y, "\n");
    if |ls| != 5 then None
    else
      match (Quoted(ls[0], "folder: "), TagList(ls[1]), AutomoveFlag(ls[2]),
             Quoted(ls[3], "created: "), Quoted(ls[4], "modified: "))
      case (Some(f), Some(t), Some(a), Some(c), Some(m)) => Some(NoteFrontmatter(f, t, a, c, m))
      case _ => None
  }

  lemma QuotedOf(key: string, v: string)
    ensures Quoted(key + "\"" + v + "\"", key) == Some(v)
  {
  }

  /** The tags line keeps every tag and their order. */
  lemma TagsRoundTrip(tags: seq<string>)
    requires tags != [""]
    requires forall i :: 0 <= i < |tags| ==> ',' !in tags[i]
    ensures TagList("tags: [" + Join(tags, ", ") + "]") == Some(tags)
  {
    var p := "tags: [";
    var inner := Join(tags, ", ");
    var line := p + inner + "]";
    assert line[..|p|] == p;
    assert line[|p|..|line| - 1] == inner;
    if tags != [] {
      assert inner != "" by {
        if |tags| == 1 { assert tags[0] != ""; } else { assert |inner| >= 2; }
      }
      SplitJoin(tags, ", ");
    }
  }

  /** A printable record is recovered exactly from its header. */
  lemma YamlRoundTrip(d: NoteFrontmatter)
    requires Printable(d)
    ensures ReadYaml(GenerateYaml(d)) == Some(d)
  {
    FiveLines(d);
    QuotedOf("folder: ", d.folder);
    QuotedOf("created: ", d.created);
    QuotedOf("modified: ", d.modified);
    TagsRoundTrip(d.tags);
    if d.automove == 0 {
      assert "automove: " + AutomoveText(d.automove) == "automove: 0";
    } else {
      assert "automove: " + AutomoveText(d.automove) == "automove: 1";
    }
  }

  /** Distinct printable records get distinct headers. */
  lemma YamlInjective(d1: NoteFrontmatter, d2: NoteFrontmatter)
    requires Printable(d1) && Printable(d2)
    ensures GenerateYaml(d1) == GenerateYaml(d2) ==> d1 == d2
  {
    YamlRoundTrip(d1);
    YamlRoundTrip(d2);
  }

  /** Tags are not escaped: one tag `a, b` and two tags `a`, `b` print alike. */
  lemma TagsNotEscaped(d: NoteFrontmatter)
    ensures d.(tags := ["a, b"]) != d.(tags := ["a", "b"])
    ensures GenerateYaml(d.(tags := ["a, b"])) == GenerateYaml(d.(tags := ["a", "b"]))
  {
    assert Join(["a", "b"], ", ") == "a, b";
  }

  // ---------------------------------------------------------------------
  // The strip pattern /^---\n.*?\n---\n/s

  /** The text starts with the opening marker `---\n`. */
  predicate StartsWithOpen(t: string)
  {
    |t| >= 4 && t[0] == '-' && t[1] == '-' && t[2] == '-' && t[3] == '\n'
  }

  /** The closing marker `\n---\n` begins at index `i`. */
  predicate CloseAt(t: string, i: int)
  {
    0 <= i && i + 5 <= |t| &&
    t[i] == '\n' && t[i + 1] == '-' && t[i + 2] == '-' && t[i + 3] == '-' && t[i + 4] == '\n'
  }

  /** No closing marker begins below index `n`. */
  ghost predicate NoCloseBelow(t: string, n: int)
  {
    forall i :: 0 <= i < n ==> !CloseAt(t, i)
  }

  /** `p` as a whole matches the pattern: `---\n`, any text, `\n---\n`. */
  ghost predicate MatchesBlock(p: string)
  {
    exists s :: p == "---\n" + s + "\n---\n"
  }

  /** `t[..k]` is the shortest prefix of `t` that the pattern matches. */
  ghost predicate ShortestBlock(t: string, k: int)
  {
    0 <= k <= |t| && MatchesBlock(t[..k]) &&
    forall j :: 0 <= j < k ==> !MatchesBlock(t[..j])
  }

  /** No prefix of `t` matches the pattern. */
  ghost predicate NoBlock(t: string)
  {
    forall k :: 0 <= k <= |t| ==> !MatchesBlock(t[..k])
  }

  lemma BlockShape(p: string)
    ensures MatchesBlock(p) <==> |p| >= 9 && StartsWithOpen(p) && CloseAt(p, |p| - 5)
  {
    if |p| >= 9 && StartsWithOpen(p) && CloseAt(p, |p| - 5) {
      var s := p[4..|p| - 5];
      assert p[..4] == "---\n";
      assert p[|p| - 5..] == "\n---\n";
      assert p == p[..4] + s + p[|p| - 5..];
    }
    if MatchesBlock(p) {
      var s :| p == "---\n" + s + "\n---\n";
      assert p[|p| - 5..] == "\n---\n";
      assert p[|p| - 5] == '\n' && p[|p| - 4] == '-' && p[|p| - 1] == '\n';
    }
  }

  lemma PrefixBlocks(t: string)
    ensures forall k :: 0 <= k <= |t| ==>
      (MatchesBlock(t[..k]) <==> 9 <= k && StartsWithOpen(t) && CloseAt(t, k - 5))
  {
    forall k | 0 <= k <= |t|
      ensures MatchesBlock(t[..k]) <==> 9 <= k && StartsWithOpen(t) && CloseAt(t, k - 5)
    {
      BlockShape(t[..k]);
    }
  }

  /** Scanner: the first closing marker that begins at index `from` or later. */
  function FindClose(t: string, from: nat): (r: Option<nat>)
    ensures r.Some? ==> from <= r.value && CloseAt(t, r.value)
    ensures r.Some? ==> forall i :: from <= i < r.value ==> !CloseAt(t, i)
    ensures r.None? ==> forall i :: from <= i ==> !CloseAt(t, i)
    decreases |t| - from
  {
    if from + 5 > |t| then None
    else if CloseAt(t, from) then Some(from)
    else FindClose(t, from + 1)
  }

  /** The length of the block the pattern strips, if it matches at all. */
  function BlockEnd(t: string): (k: Option<nat>)
    ensures k.Some? ==> ShortestBlock(t, k.value)
    ensures k.None? ==> NoBlock(t)
  {
    PrefixBlocks(t);
    if StartsWithOpen(t) then
      match FindClose(t, 4)
      case Some(i) => Some(i + 5)
      case None => None
    else None
  }

  /**
   * `content.replace(/^---\n.*?\n---\n/s, '')`: the shortest matching prefix
   * is removed, and only that one; without a match the text is unchanged.
   */
  function Strip(t: string): (r: string)
    ensures |r| <= |t| && r == t[|t| - |r|..]
    ensures NoBlock(t) ==> r == t
    ensures forall k :: ShortestBlock(t, k) ==> r == t[k..]
  {
    match BlockEnd(t)
    case None => t
    case Some(k) => t[k..]
  }

  /**
   * `content.replace(...) || content`: the stripped text, or the original
   * (old block included) when stripping leaves nothing.
   */
  function NewContent(content: string): (body: string)
    ensures |body| <= |content| && body == content[|content| - |body|..]
    ensures NoBlock(content) ==> body == content
    ensures forall k :: ShortestBlock(content, k) && k < |content| ==> body == content[k..]
    ensures ShortestBlock(content, |content|) ==> body == content
    ensures body == "" <==> content == ""
  {
    var s := Strip(content);
    if s == "" then content else s
  }

  /** The text `updateFrontmatter` writes back. */
  function UpdatedText(content: string, yaml: string): string
  {
    "---\n" + yaml + "---\n" + NewContent(content)
  }

  /**
   * The written note starts with `---\n` and ends with the body; since the
   * header has no trailing newline, the closing `---` sits on the `modified`
   * line, right after its closing quote.
   */
  lemma WrittenLayout(content: string, d: NoteFrontmatter)
    ensures var r := UpdatedText(content, GenerateYaml(d));
      var tail := "\n" + ("modified: \"" + d.modified + "\"") + "---\n" + NewContent(content);
      StartsWithOpen(r) && |r| >= |tail| && r[|r| - |tail|..] == tail
  {
    EndsWithModifiedLine(d);
    LastLineLayout(GenerateYaml(d), "modified: \"" + d.modified + "\"", NewContent(content));
  }

  lemma LastLineLayout(y: string, last: string, body: string)
    requires |y| > |last| && y[|y| - |last|..] == last && y[|y| - |last| - 1] == '\n'
    ensures var r := "---\n" + y + "---\n" + body;
      var tail := "\n" + last + "---\n" + body;
      StartsWithOpen(r) && |r| >= |tail| && r[|r| - |tail|..] == tail
  {
  }

  /** The pattern matches exactly one block at the head of a note: only that block goes. */
  lemma StripFirstBlock(s: string, rest: string)
    requires NoCloseBelow(s + "\n---\n", |s|)
    ensures Strip("---\n" + s + "\n---\n" + rest) == rest
  {
    var t := "---\n" + s + "\n---\n" + rest;
    var k := 9 + |s|;
    PrefixBlocks(t);
    assert t[..k] == "---\n" + s + "\n---\n";
    assert MatchesBlock(t[..k]);
    forall j | 0 <= j < k ensures !MatchesBlock(t[..j])
    {
      if 9 <= j {
        assert CloseAt(t, j - 5) ==> CloseAt(s + "\n---\n", j - 9);
      }
    }
    assert ShortestBlock(t, k);
    assert t[k..] == rest;
  }

  // Building blocks for locating closing markers in generated text.

  lemma NoCloseLine(a: string, b: string, n: int)
    requires '\n' !in a && NoCloseBelow(b, n)
    ensures NoCloseBelow(a + b, |a| + n)
  {
    forall i | 0 <= i < |a| + n ensures !CloseAt(a + b, i)
    {
      if i < |a| {
        assert (a + b)[i] == a[i];
      } else {
        assert CloseAt(a + b, i) ==> CloseAt(b, i - |a|);
      }
    }
  }

  lemma NoCloseAfterNewline(a: string, b: string, n: int)
    requires |a| > 0 && a[0] != '-' && NoCloseBelow(a + b, n)
    ensures NoCloseBelow("\n" + a + b, n + 1)
  {
    forall i | 0 <= i < n + 1 ensures !CloseAt("\n" + a + b, i)
    {
      if i == 0 {
        assert ("\n" + a + b)[1] == a[0];
      } else {
        assert CloseAt("\n" + a + b, i) ==> CloseAt(a + b, i - 1);
      }
    }
  }

  /**
   * Five lines without line breaks, the last four not starting with `-`,
   * followed by `b`: no closing marker starts before the end of the lines.
   */
  lemma NoCloseInLines(l1: string, l2: string, l3: string, l4: string, l5: string, b: string, n: int)
    requires '\n' !in l1 && '\n' !in l2 && '\n' !in l3 && '\n' !in l4 && '\n' !in l5
    requires |l2| > 0 && l2[0] != '-' && |l3| > 0 && l3[0] != '-'
    requires |l4| > 0 && l4[0] != '-' && |l5| > 0 && l5[0] != '-'
    requires NoCloseBelow(b, n)
    ensures NoCloseBelow(l1 + "\n" + l2 + "\n" + l3 + "\n" + l4 + "\n" + l5 + b,
                         |l1| + |l2| + |l3| + |l4| + |l5| + 4 + n)
  {
    var t5, n5 := "\n" + l5 + b, |l5| + n + 1;
    NoCloseLine(l5, b, n);
    NoCloseAfterNewline(l5, b, |l5| + n);
    var t4, n4 := "\n" + l4 + t5, |l4| + n5 + 1;
    NoCloseLine(l4, t5, n5);
    NoCloseAfterNewline(l4, t5, |l4| + n5);
    var t3, n3 := "\n" + l3 + t4, |l3| + n4 + 1;
    NoCloseLine(l3, t4, n4);
    NoCloseAfterNewline(l3, t4, |l3| + n4);
    var t2, n2 := "\n" + l2 + t3, |l2| + n3 + 1;
    NoCloseLine(l2, t3, n3);
    NoCloseAfterNewline(l2, t3, |l2| + n3);
    NoCloseLine(l1, t2, n2);
    assert l1 + "\n" + l2 + "\n" + l3 + "\n" + l4 + "\n" + l5 + b == l1 + t2;
  }

  /** A header followed by text `b`: no closing marker starts inside the header. */
  lemma NoCloseInYaml(d: NoteFrontmatter, b: string, n: int)
    requires NoNewlines(d) && NoCloseBelow(b, n)
    ensures NoCloseBelow(GenerateYaml(d) + b, |GenerateYaml(d)| + n)
  {
    YamlText(d);
    NotInJoin(d.tags, ", ", '\n');
    NoCloseInLines(
      "folder: \"" + d.folder + "\"",
      "tags: [" + Join(d.tags, ", ") + "]",
      "automove: " + AutomoveText(d.automove),
      "created: \"" + d.created + "\"",
      "modified: \"" + d.modified + "\"",
      b, n);
  }

  lemma NoCloseAfterMarker(body: string)
    requires NoCloseBelow(body, |body|) && !StartsWithOpen(body)
    ensures NoCloseBelow("---\n" + body, 4 + |body|)
  {
    var t := "---\n" + body;
    forall i | 0 <= i < 4 + |body| ensures !CloseAt(t, i)
    {
      assert forall j :: 0 <= j < |body| ==> t[4 + j] == body[j];
      if i >= 4 {
        assert CloseAt(t, i) ==> CloseAt(body, i - 4);
      }
    }
  }

  /** Text with no closing marker at index 4 or later is not a block. */
  lemma NoBlockWithoutClose(t: string)
    requires forall i :: 4 <= i ==> !CloseAt(t, i)
    ensures NoBlock(t)
  {
    PrefixBlocks(t);
  }

  /**
   * The plugin's own output is not recognised as a block: when the
   * remaining body has no marker lines, the strip pattern finds no match in
   * the text `updateFrontmatter` wrote, because the closing `---` shares the
   * `modified` line.
   */
  lemma OwnOutputNotRecognised(content: string, d: NoteFrontmatter)
    requires NoNewlines(d)
    requires NoCloseBelow(NewContent(content), |NewContent(content)|)
    requires !StartsWithOpen(NewContent(content))
    ensures NoBlock(UpdatedText(content, GenerateYaml(d)))
    ensures Strip(UpdatedText(content, GenerateYaml(d))) == UpdatedText(content, GenerateYaml(d))
  {
    HeaderThenBody(d, NewContent(content));
  }

  lemma HeaderThenBody(d: NoteFrontmatter, body: string)
    requires NoNewlines(d)
    requires NoCloseBelow(body, |body|) && !StartsWithOpen(body)
    ensures NoBlock("---\n" + GenerateYaml(d) + "---\n" + body)
  {
    var y := GenerateYaml(d);
    var t := "---\n" + y + "---\n" + body;
    NoCloseAfterMarker(body);
    NoCloseInYaml(d, "---\n" + body, 4 + |body|);
    assert t[4..] == y + ("---\n" + body);
    forall i | 4 <= i ensures !CloseAt(t, i)
    {
      assert CloseAt(t, i) ==> CloseAt(t[4..], i - 4);
    }
    NoBlockWithoutClose(t);
  }

  /**
   * Writing twice stacks a second header above the first instead of
   * replacing it: `updateFrontmatter` is not idempotent.
   */
  lemma RewriteStacksBlocks(content: string, d1: NoteFrontmatter, d2: NoteFrontmatter)
    requires NoNewlines(d1)
    requires NoCloseBelow(NewContent(content), |NewContent(content)|)
    requires !StartsWithOpen(NewContent(content))
    ensures UpdatedText(UpdatedText(content, GenerateYaml(d1)), GenerateYaml(d2)) ==
      "---\n" + GenerateYaml(d2) + "---\n" + UpdatedText(content, GenerateYaml(d1))
  {
    OwnOutputNotRecognised(content, d1);
  }

  /**
   * A third write strips from the start up to the marker line that opens
   * the first write's header: the second header is lost, and the first
   * header's lines remain in the body without their opening marker.
   */
  lemma ThirdWriteSplices(content: string, d1: NoteFrontmatter, d2: NoteFrontmatter)
    requires NoNewlines(d1) && NoNewlines(d2)
    requires NoCloseBelow(NewContent(content), |NewContent(content)|)
    requires !StartsWithOpen(NewContent(content))
    ensures NewContent(UpdatedText(UpdatedText(content, GenerateYaml(d1)), GenerateYaml(d2))) ==
      GenerateYaml(d1) + "---\n" + NewContent(content)
  {
    var y1, y2 := GenerateYaml(d1), GenerateYaml(d2);
    var body := NewContent(content);
    var rest := y1 + "---\n" + body;
    var once := UpdatedText(content, y1);
    assert once == "---\n" + rest;
    RewriteStacksBlocks(content, d1, d2);
    var twice := UpdatedText(once, y2);
    assert twice == "---\n" + y2 + "---\n" + once;
    StackedStrip(d2, rest);
    EndsWithModifiedLine(d1);
    assert Strip(twice) == rest && rest != "";
  }

  /**
   * A body with a marker line of its own, such as a Markdown rule: the
   * first write leaves `a\n---\nrest` whole, but the second write's lazy
   * match ends at that rule, so it removes the first header together with
   * the line `a` above the rule.
   */
  lemma SecondWriteCutsAtRule(d1: NoteFrontmatter, a: string, rest: string)
    requires NoNewlines(d1)
    requires '\n' !in a && |a| > 0 && a[0] != '-' && rest != ""
    ensures NewContent(a + "\n---\n" + rest) == a + "\n---\n" + rest
    ensures NewContent(UpdatedText(a + "\n---\n" + rest, GenerateYaml(d1))) == rest
  {
    var y := GenerateYaml(d1);
    var body := a + "\n---\n" + rest;
    PrefixBlocks(body);
    assert NoBlock(body);
    var s := y + "---\n" + a;
    RuleBelowLine(a);
    NoCloseInYaml(d1, "---\n" + a + "\n---\n", 4 + |a|);
    assert y + ("---\n" + a + "\n---\n") == s + "\n---\n";
    StripFirstBlock(s, rest);
    RuleRegroup(y, a, rest);
  }

  /** Below the line `a`, the marker `---\n` and `a` hold no closing marker. */
  lemma RuleBelowLine(a: string)
    requires '\n' !in a && |a| > 0 && a[0] != '-'
    ensures NoCloseBelow("---\n" + a + "\n---\n", 4 + |a|)
  {
    var t := "---\n" + a + "\n---\n";
    forall i | 0 <= i < 4 + |a| ensures !CloseAt(t, i)
    {
      if 4 <= i {
        assert t[i] == a[i - 4];
      } else if i == 3 {
        assert t[4] == a[0];
      } else {
        assert t[i] == '-';
      }
    }
  }

  lemma RuleRegroup(y: string, a: string, rest: string)
    ensures "---\n" + y + "---\n" + (a + "\n---\n" + rest) == "---\n" + (y + "---\n" + a) + "\n---\n" + rest
  {
  }

  /** Stripping a header that was stacked above a marker line `---\n`. */
  lemma StackedStrip(d: NoteFrontmatter, rest: string)
    requires NoNewlines(d)
    ensures Strip("---\n" + GenerateYaml(d) + "---\n" + ("---\n" + rest)) == rest
  {
    var y := GenerateYaml(d);
    MarkerRegroup(y, rest);
    NoCloseInYaml(d, "---\n---\n", 3);
    assert (y + "---") + "\n---\n" == y + "---\n---\n";
    StripFirstBlock(y + "---", rest);
  }

  lemma MarkerRegroup(y: string, rest: string)
    ensures "---\n" + y + "---\n" + ("---\n" + rest) == "---\n" + (y + "---") + "\n---\n" + rest
  {
  }

  // ---------------------------------------------------------------------
  // updateFrontmatter

  /**
   * `FrontmatterProcessor.updateFrontmatter`: read the note, build the
   * header, strip the old block and write the result. A note missing from
   * the vault makes the read reject; nothing is written then.
   */
  method UpdateFrontmatter(vault: Vault, file: TFile, data: NoteFrontmatter) returns (ok: bool)
    modifies vault
    ensures ok <==> file.path in old(vault.files)
    ensures ok ==>
      var text := UpdatedText(old(vault.files)[file.path], GenerateYaml(data));
      vault.files == old(vault.files)[file.path := text] &&
      vault.log == old(vault.log) + [Modified(file.path, text)]
    ensures !ok ==> vault.files == old(vault.files) && vault.log == old(vault.log)
  {
    var content := vault.Read(file);
    if content.None? {
      return false;
    }
    var yaml := GenerateYaml(data);
    var newContent := NewContent(content.value);
    vault.Modify(file, "---\n" + yaml + "---\n" + newContent);
    ok := true;
  }
}
