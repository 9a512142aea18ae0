/**
 * The two-column error table that both validation results print from
 * `summaryErrorMessage`: an optional header block, the line of the thing that
 * was validated, then one line per option with the key right-aligned in a
 * column of `max(24, longest key)` characters, four spaces and the value.
 */
module ValidationSummary {
  import opened JavaLang

  /** The narrowest key column. */
  const MinWidth: nat := 24

  /** The dashed line under the title. */
  const Rule: string := Repeat('-', 135)

  /** The header block: title, dashed line, empty line. */
  function Header(title: string): string {
    title + "\n" + Rule + "\n" + "\n"
  }

  /**
   * `String.format("%<width>s", s)`: `s` right-aligned in `width` characters,
   * spaces in front; a longer `s` is kept whole.
   */
  function PadLeft(s: string, width: nat): (r: string)
    ensures |r| == if |s| < width then width else |s|
    ensures r[|r| - |s|..] == s
    ensures forall k :: 0 <= k < |r| - |s| ==> r[k] == ' '
  {
    if |s| < width then Repeat(' ', width - |s|) + s else s
  }

  /** One option line, `"\n\t"` then `String.format("%<width>s    %s", key, value)`. */
  function Row(key: string, value: string, width: nat): string {
    "\n\t" + PadLeft(key, width) + "    " + value
  }

  /**
   * In a line whose key fits the column, the key ends exactly at the column's
   * edge and the value starts four spaces after it.
   */
  lemma RowColumns(key: string, value: string, width: nat)
    requires |key| <= width
    ensures var line := Row(key, value, width);
            && |line| == 2 + width + 4 + |value|
            && line[..2] == "\n\t"
            && line[2 + width - |key|..2 + width] == key
            && (forall k :: 2 <= k < 2 + width - |key| ==> line[k] == ' ')
            && line[2 + width..2 + width + 4] == "    "
            && line[2 + width + 4..] == value
  {
    var line := Row(key, value, width);
    var pad := PadLeft(key, width);
    assert line == "\n\t" + pad + "    " + value;
    assert line[2..2 + width] == pad;
  }

  /** The key column: at least `MinWidth`, and as wide as the longest key. */
  function Width(keys: seq<string>): (w: nat)
    ensures w >= MinWidth
    ensures forall k :: 0 <= k < |keys| ==> |keys[k]| <= w
    ensures w == MinWidth || exists k :: 0 <= k < |keys| && |keys[k]| == w
  {
    if |keys| == 0 then MinWidth
    else
      var w := Width(keys[..|keys| - 1]);
      var last := keys[|keys| - 1];
      if w < |last| then |last| else w
  }

  /** The `maxLen` loop over the option keys. */
  method ColumnWidth(keys: seq<string>) returns (maxLen: nat)
    ensures maxLen == Width(keys)
  {
    maxLen := MinWidth;
    for i := 0 to |keys|
      invariant maxLen == Width(keys[..i])
    {
      assert keys[..i + 1][..i] == keys[..i];
      if maxLen < |keys[i]| {
        maxLen := |keys[i]|;
      }
    }
    assert keys[..|keys|] == keys;
  }

  /** The option lines, in the options' order. */
  function Lines(options: seq<(string, string)>, width: nat): (lines: seq<string>)
    ensures |lines| == |options|
    ensures forall k :: 0 <= k < |options| ==> lines[k] == Row(options[k].0, options[k].1, width)
  {
    if |options| == 0 then []
    else
      var last := options[|options| - 1];
      Lines(options[..|options| - 1], width) + [Row(last.0, last.1, width)]
  }

  /** Lines put one after the other, as `StringBuilder.append` does. */
  function Concat(lines: seq<string>): string {
    if |lines| == 0 then "" else Concat(lines[..|lines| - 1]) + lines[|lines| - 1]
  }

  lemma {:induction false} ConcatAppend(a: seq<string>, b: seq<string>)
    ensures Concat(a + b) == Concat(a) + Concat(b)
    decreases |b|
  {
    if |b| == 0 {
      assert a + b == a;
    } else {
      var init := b[..|b| - 1];
      assert (a + b)[..|a + b| - 1] == a + init;
      ConcatAppend(a, init);
    }
  }

  lemma AppendAssociative(a: string, b: string, c: string)
    ensures (a + b) + c == a + (b + c)
  {
  }

  /** The text of the option lines. */
  function Rows(options: seq<(string, string)>, width: nat): string {
    Concat(Lines(options, width))
  }

  /** Line `i` sits between the lines before it and the lines after it. */
  lemma {:induction false} ConcatAt(lines: seq<string>, i: nat)
    requires i < |lines|
    ensures Concat(lines) == Concat(lines[..i]) + lines[i] + Concat(lines[i + 1..])
  {
    assert lines == lines[..i] + ([lines[i]] + lines[i + 1..]);
    ConcatAppend(lines[..i], [lines[i]] + lines[i + 1..]);
    ConcatAppend([lines[i]], lines[i + 1..]);
    assert [lines[i]][..0] == [];
  }

  /** The lines of the first options are the first lines, and so for the last ones. */
  lemma LinesSlices(options: seq<(string, string)>, width: nat, i: nat)
    requires i <= |options|
    ensures Lines(options[..i], width) == Lines(options, width)[..i]
    ensures Lines(options[i..], width) == Lines(options, width)[i..]
  {
    LinesPrefix(options, width, i);
    LinesSuffix(options, width, i);
  }

  lemma LinesPrefix(options: seq<(string, string)>, width: nat, i: nat)
    requires i <= |options|
    ensures Lines(options[..i], width) == Lines(options, width)[..i]
  {
    var lines, front := Lines(options, width), Lines(options[..i], width);
    forall k | 0 <= k < i ensures front[k] == lines[k] {
      assert options[..i][k] == options[k];
    }
  }

  lemma LinesSuffix(options: seq<(string, string)>, width: nat, i: nat)
    requires i <= |options|
    ensures Lines(options[i..], width) == Lines(options, width)[i..]
  {
    var lines, back := Lines(options, width), Lines(options[i..], width);
    forall k | 0 <= k < |options| - i ensures back[k] == lines[i + k] {
      assert options[i..][k] == options[i + k];
    }
  }

  /**
   * Line `i` sits between the lines of the options before it and those after
   * it: the options' order is the lines' order.
   */
  lemma RowAt(options: seq<(string, string)>, width: nat, i: nat)
    requires i < |options|
    ensures Rows(options, width)
         == Rows(options[..i], width) + Row(options[i].0, options[i].1, width) + Rows(options[i + 1..], width)
  {
    var lines := Lines(options, width);
    ConcatAt(lines, i);
    LinesSlices(options, width, i);
    LinesSlices(options, width, i + 1);
  }

  /** The keys of the options, in order. */
  function Keys(options: seq<(string, string)>): (keys: seq<string>)
    ensures |keys| == |options| && forall k :: 0 <= k < |options| ==> keys[k] == options[k].0
  {
    if |options| == 0 then [] else Keys(options[..|options| - 1]) + [options[|options| - 1].0]
  }

  /** The line the validated thing is shown on: `"\t" + it + "\n"`, or just `"\n"` when it is null. */
  function SubjectLine(subject: Option<string>): string {
    match subject
    case Some(s) => "\t" + s + "\n"
    case None => "\n"
  }

  /** The whole summary text. */
  function Summary(includeHeader: bool, title: string, subject: Option<string>,
                   options: seq<(string, string)>, width: nat): string {
    (if includeHeader then Header(title) else "") + SubjectLine(subject) + Rows(options, width)
  }

  /** The option lines, appended to `sb` one after the other. */
  method AppendRows(sb: string, options: seq<(string, string)>, width: nat)
    returns (out: string)
    ensures out == sb + Rows(options, width)
  {
    out := sb;
    ghost var lines := Lines(options, width);
    for i := 0 to |options|
      invariant out == sb + Concat(lines[..i])
    {
      var line := Row(options[i].0, options[i].1, width);
      assert Concat(lines[..i + 1]) == Concat(lines[..i]) + line by {
        assert lines[..i + 1][..i] == lines[..i];
      }
      AppendAssociative(sb, Concat(lines[..i]), line);
      out := out + line;
    }
    assert lines[..|options|] == lines;
  }

  /**
   * The summary starts with the header block exactly when it was asked for
   * (the title starts with neither a tab nor a line break); the subject line
   * comes next.
   */
  lemma HeaderOnlyWhenRequested(includeHeader: bool, title: string, subject: Option<string>,
                                options: seq<(string, string)>, width: nat)
    requires |title| > 0 && title[0] != '\t' && title[0] != '\n'
    ensures var text := Summary(includeHeader, title, subject, options, width);
            var h := Header(title);
            && (|h| <= |text| && text[..|h|] == h <==> includeHeader)
            && (includeHeader ==> text[|h|..|h| + |SubjectLine(subject)|] == SubjectLine(subject))
            && (!includeHeader ==> text[..|SubjectLine(subject)|] == SubjectLine(subject))
  {
    var text := Summary(includeHeader, title, subject, options, width);
    var h := Header(title);
    var line := SubjectLine(subject);
    if includeHeader {
      assert text == h + line + Rows(options, width);
      assert text[|h|..|h| + |line|] == line;
    } else {
      assert text == line + Rows(options, width);
      assert text[0] == line[0] && h[0] == title[0];
    }
  }
}
