/**
 The on-disk layout that the "update expectations" command writes back
 into a syntax test file: the test's source text verbatim, the separator
 line, then one comment line per observed error.

 How an individual error is rendered into text belongs to the test engine;
 here each error arrives already rendered as one line of text, and this
 module only adds the comment prefix and the line break.
 */
module Expectations {

  /** The separator line, written with its line break. */
  const Separator: string := "// ----\n"

  /** The prefix that turns a rendered error into a comment line. */
  const LinePrefix: string := "// "

  predicate NoLineBreaks(line: string) {
    forall i | 0 <= i < |line| :: line[i] != '\n'
  }

  predicate AllSingleLines(lines: seq<string>) {
    forall i | 0 <= i < |lines| :: NoLineBreaks(lines[i])
  }

  /** The comment block for a list of rendered errors, one line each. */
  function Block(errors: seq<string>): (block: string)
    ensures |errors| == 0 <==> |block| == 0
  {
    if |errors| == 0 then ""
    else LinePrefix + errors[0] + "\n" + Block(errors[1..])
  }

  /** The whole file text written by the update command. */
  function UpdatedText(source: string, errors: seq<string>): (text: string)
    ensures |source| + |Separator| <= |text|
    ensures text[..|source|] == source
    ensures text[|source|..|source| + |Separator|] == Separator
    ensures |errors| == 0 ==> |text| == |source| + |Separator|
  {
    source + Separator + (if |errors| != 0 then Block(errors) else "")
  }

  /** Index of the first line break in `s`, or `|s|` when there is none. */
  function LineEnd(s: string): (k: nat)
    ensures k <= |s|
    ensures k < |s| ==> s[k] == '\n'
    ensures forall i | 0 <= i < k :: s[i] != '\n'
  {
    if |s| == 0 then 0
    else if s[0] == '\n' then 0
    else 1 + LineEnd(s[1..])
  }

  datatype Parsed = Malformed | Lines(lines: seq<string>)

  /** Reads a comment block back into its lines: the partner of `Block`. */
  function ParseBlock(text: string): (r: Parsed)
    decreases |text|
  {
    if |text| == 0 then Lines([])
    else if |text| < |LinePrefix| || text[..|LinePrefix|] != LinePrefix then Malformed
    else
      var body := text[|LinePrefix|..];
      var k := LineEnd(body);
      if k == |body| then Malformed
      else
        match ParseBlock(body[k + 1..])
        case Malformed => Malformed
        case Lines(rest) => Lines([body[..k]] + rest)
  }

  lemma LineEndOfLine(line: string, rest: string)
    requires NoLineBreaks(line)
    ensures LineEnd(line + "\n" + rest) == |line|
  {
    var s := line + "\n" + rest;
    assert forall i | 0 <= i < |line| :: s[i] == line[i];
    assert s[|line|] == '\n';
  }

  /** Every block of single-line errors reads back as exactly those errors. */
  lemma {:induction false} BlockRoundTrip(errors: seq<string>)
    requires AllSingleLines(errors)
    ensures ParseBlock(Block(errors)) == Lines(errors)
  {
    if |errors| != 0 {
      var rest := Block(errors[1..]);
      var text := Block(errors);
      assert text == LinePrefix + (errors[0] + "\n" + rest);
      var body := text[|LinePrefix|..];
      assert body == errors[0] + "\n" + rest;
      assert NoLineBreaks(errors[0]);
      LineEndOfLine(errors[0], rest);
      assert body[..|errors[0]|] == errors[0];
      assert body[|errors[0]| + 1..] == rest;
      assert AllSingleLines(errors[1..]);
      BlockRoundTrip(errors[1..]);
      assert [errors[0]] + errors[1..] == errors;
    }
  }

  /**
   The text written by an update splits back into the source, the separator
   and the observed errors; with no errors, nothing follows the separator.
   */
  lemma UpdatedTextRoundTrip(source: string, errors: seq<string>)
    requires AllSingleLines(errors)
    ensures var text := UpdatedText(source, errors);
      && text[..|source|] == source
      && text[|source|..|source| + |Separator|] == Separator
      && ParseBlock(text[|source| + |Separator|..]) == Lines(errors)
  {
    var text := UpdatedText(source, errors);
    if |errors| != 0 {
      assert text[|source| + |Separator|..] == Block(errors);
      BlockRoundTrip(errors);
    } else {
      assert text[|source| + |Separator|..] == "";
    }
  }
}
