/**
 * The line main sends for every sample (main.c:160-179):
 *   "X: " ax " Y: " ay " Z: " az " PSSI: " gx " PHI: " gy " RHO: " gz "\n"
 * Split on single spaces, its body is twelve tokens: a label at every even
 * position and a signed decimal at every odd one. ReadRecord is the reference
 * reader for that line; it accepts exactly the lines the firmware can send.
 */
module Record {
  import opened Wrappers
  import opened Numerals
  import opened Sensor

  const LABELS: seq<string> := ["X:", "Y:", "Z:", "PSSI:", "PHI:", "RHO:"]

  /** The index of the first sep in s. */
  function IndexOf(s: string, sep: char): (i: nat)
    requires sep in s
    ensures i < |s| && s[i] == sep && sep !in s[..i]
  {
    if s[0] == sep then 0
    else
      assert sep in s[1..];
      var j := IndexOf(s[1..], sep);
      assert s[..j + 1] == [s[0]] + s[1..][..j];
      j + 1
  }

  /** s cut at every sep, as Python's `s.split(sep)` does; never empty. */
  function Split(s: string, sep: char): (r: seq<string>)
    ensures |r| > 0
    decreases |s|
  {
    if sep in s then
      var i := IndexOf(s, sep);
      [s[..i]] + Split(s[i + 1..], sep)
    else [s]
  }

  /** The tokens of ts with one sep between neighbours. */
  function Join(ts: seq<string>, sep: char): string
    requires |ts| > 0
  {
    if |ts| == 1 then ts[0] else ts[0] + [sep] + Join(ts[1..], sep)
  }

  predicate NoSep(ts: seq<string>, sep: char) {
    forall k :: 0 <= k < |ts| ==> sep !in ts[k]
  }

  lemma IndexOfUnique(s: string, sep: char, i: nat)
    requires i < |s| && s[i] == sep && sep !in s[..i]
    ensures IndexOf(s, sep) == i
  {
  }

  /** Splitting undoes joining tokens that do not contain the separator. */
  lemma {:induction false} SplitJoin(ts: seq<string>, sep: char)
    requires |ts| > 0 && NoSep(ts, sep)
    ensures Split(Join(ts, sep), sep) == ts
  {
    if |ts| > 1 {
      var rest := Join(ts[1..], sep);
      assert Join(ts, sep) == ts[0] + [sep] + rest;
      assert sep !in ts[0];
      SplitAtFirst(ts[0], sep, rest);
      assert NoSep(ts[1..], sep);
      SplitJoin(ts[1..], sep);
      assert ts == [ts[0]] + ts[1..];
    } else {
      assert sep !in ts[0];
    }
  }

  /** Splitting cuts at the first sep and goes on after it. */
  lemma SplitAtFirst(a: string, sep: char, b: string)
    requires sep !in a
    ensures Split(a + [sep] + b, sep) == [a] + Split(b, sep)
  {
    var s := a + [sep] + b;
    assert s[|a|] == sep && s[..|a|] == a;
    IndexOfUnique(s, sep, |a|);
    assert s[|a| + 1..] == b;
  }

  /** Joining undoes splitting. */
  lemma {:induction false} JoinSplit(s: string, sep: char)
    ensures Join(Split(s, sep), sep) == s
    decreases |s|
  {
    if sep in s {
      var i := IndexOf(s, sep);
      JoinSplit(s[i + 1..], sep);
      JoinCons(s[..i], Split(s[i + 1..], sep), sep);
      assert s == s[..i] + [sep] + s[i + 1..];
    }
  }

  /** The six values of a sample, in the order main sends them. */
  function Values(s: Sample): seq<int> {
    [s.ax, s.ay, s.az, s.gx, s.gy, s.gz]
  }

  /**
   * For every label and value: the label, a space, the value's decimal text,
   * then a space before the next label or '\n' after the last one.
   */
  function Line(labels: seq<string>, values: seq<int>): string
    requires |labels| == |values| > 0
    decreases |labels|
  {
    labels[0] + " " + (DecimalText(values[0]) +
      (if |labels| == 1 then "\n" else " " + Line(labels[1..], values[1..])))
  }

  /** Labels and the decimal text of the values, alternating. */
  function Interleave(labels: seq<string>, values: seq<int>): (ts: seq<string>)
    requires |labels| == |values|
    ensures |ts| == 2 * |labels|
  {
    if labels == [] then []
    else [labels[0], DecimalText(values[0])] + Interleave(labels[1..], values[1..])
  }

  /** Token 2k of the interleaving is label k, and token 2k + 1 is the text of value k. */
  lemma {:induction false} InterleaveAt(labels: seq<string>, values: seq<int>, k: nat)
    requires |labels| == |values| && k < |labels|
    ensures Interleave(labels, values)[2 * k] == labels[k]
    ensures Interleave(labels, values)[2 * k + 1] == DecimalText(values[k])
    decreases k
  {
    if k > 0 {
      InterleaveAt(labels[1..], values[1..], k - 1);
    }
  }

  /** The characters main sends for s in one pass of its loop (main.c:160-179). */
  function RecordLine(s: Sample): (line: string)
    ensures line == Join(Tokens(s), ' ') + "\n"
  {
    LineJoin(LABELS, Values(s));
    Line(LABELS, Values(s))
  }

  /** The twelve tokens of the line for sample s. */
  function Tokens(s: Sample): seq<string> {
    Interleave(LABELS, Values(s))
  }

  lemma DecimalHasNoSpace(num: int)
    ensures ' ' !in DecimalText(num) && '\n' !in DecimalText(num)
  {
    var t := DecimalText(num);
    DigitsIsNumeral(if num < 0 then -num else num);
    forall k | 0 <= k < |t|
      ensures t[k] != ' ' && t[k] != '\n'
    {
      if num < 0 && k > 0 {
        assert t[k] == Digits(-num)[k - 1];
      }
    }
  }

  /** A line is its tokens joined by single spaces, then '\n'. */
  lemma {:induction false} LineJoin(labels: seq<string>, values: seq<int>)
    requires |labels| == |values| > 0
    ensures Line(labels, values) == Join(Interleave(labels, values), ' ') + "\n"
    decreases |labels|
  {
    var d := DecimalText(values[0]);
    var rest := Interleave(labels[1..], values[1..]);
    assert Interleave(labels, values) == [labels[0]] + ([d] + rest);
    JoinCons(labels[0], [d] + rest, ' ');
    JoinCons(d, rest, ' ');
    if |labels| > 1 {
      LineJoin(labels[1..], values[1..]);
      LineStep(labels[0], d, Join(rest, ' '));
    }
  }

  /** Joining a token before the rest of the tokens. */
  lemma JoinCons(a: string, rest: seq<string>, sep: char)
    ensures Join([a] + rest, sep) == if rest == [] then a else a + [sep] + Join(rest, sep)
  {
    assert ([a] + rest)[1..] == rest;
  }

  /** One field of the line, regrouped as two tokens and their separators. */
  lemma LineStep(tag: string, d: string, more: string)
    ensures tag + " " + (d + (" " + (more + "\n"))) == tag + [' '] + (d + [' '] + more) + "\n"
  {
  }

  lemma NoSpaceInTokens(s: Sample)
    ensures NoSep(Tokens(s), ' ') && NoSep(Tokens(s), '\n')
  {
    var ts := Tokens(s);
    TokensAt(s);
    DecimalHasNoSpace(s.ax);
    DecimalHasNoSpace(s.ay);
    DecimalHasNoSpace(s.az);
    DecimalHasNoSpace(s.gx);
    DecimalHasNoSpace(s.gy);
    DecimalHasNoSpace(s.gz);
    forall j | 0 <= j < 12
      ensures ' ' !in ts[j] && '\n' !in ts[j]
    {
      assert j in {0, 1, 2, 3, 4, 5, 6, 7, 8, 9, 10, 11};
    }
  }

  /** The line is one body without '\n', then '\n'; the body is the tokens joined by single spaces. */
  lemma RecordLineShape(s: Sample)
    ensures var line := RecordLine(s);
      |line| > 0 && line[|line| - 1] == '\n' && line[..|line| - 1] == Join(Tokens(s), ' ')
    ensures '\n' !in RecordLine(s)[..|RecordLine(s)| - 1]
  {
    LineJoin(LABELS, Values(s));
    var line := RecordLine(s);
    var body := Join(Tokens(s), ' ');
    assert line[..|line| - 1] == body;
    NoSpaceInTokens(s);
    NoNewlineInJoin(Tokens(s));
  }

  lemma {:induction false} NoNewlineInJoin(ts: seq<string>)
    requires |ts| > 0 && NoSep(ts, '\n')
    ensures '\n' !in Join(ts, ' ')
  {
    if |ts| > 1 {
      NoNewlineInJoin(ts[1..]);
    }
  }

  /** Splitting the line's body on single spaces gives the labels and the decimal text of the six values. */
  lemma RecordTokens(s: Sample)
    ensures var line := RecordLine(s);
      Split(line[..|line| - 1], ' ') == Tokens(s)
  {
    RecordLineShape(s);
    NoSpaceInTokens(s);
    SplitJoin(Tokens(s), ' ');
  }

  /** Reads one int16 token. */
  function ReadInt16(t: string): (r: Option<Int16>)
    ensures r.Some? ==> DecimalText(r.value) == t
  {
    match ParseDecimal(t)
    case Some(v) =>
      ParseDecimalCanonical(t, v);
      if -0x8000 <= v < 0x8000 then Some(v) else None
    case None => None
  }

  /** The tokens at even positions are the six labels, in order. */
  predicate LabelsAt(ts: seq<string>)
    requires |ts| == 12
  {
    forall k :: 0 <= k < 6 ==> ts[2 * k] == LABELS[k]
  }

  /** Reads one line: a body split on single spaces into labelled int16 values, then '\n'. */
  function ReadRecord(line: string): Option<Sample> {
    if |line| == 0 || line[|line| - 1] != '\n' then None
    else
      var ts := Split(line[..|line| - 1], ' ');
      if |ts| != 12 || !LabelsAt(ts) then None
      else ReadValues(ts)
  }

  /** The six values at the odd positions of twelve tokens, each an int16 numeral. */
  function ReadValues(ts: seq<string>): Option<Sample>
    requires |ts| == 12
  {
    var ax :- ReadInt16(ts[1]);
    var ay :- ReadInt16(ts[3]);
    var az :- ReadInt16(ts[5]);
    var gx :- ReadInt16(ts[7]);
    var gy :- ReadInt16(ts[9]);
    var gz :- ReadInt16(ts[11]);
    Some(Sample(ax, ay, az, gx, gy, gz))
  }

  lemma TokensAt(s: Sample)
    ensures |Tokens(s)| == 12
    ensures Tokens(s)[0] == "X:" && Tokens(s)[1] == DecimalText(s.ax)
    ensures Tokens(s)[2] == "Y:" && Tokens(s)[3] == DecimalText(s.ay)
    ensures Tokens(s)[4] == "Z:" && Tokens(s)[5] == DecimalText(s.az)
    ensures Tokens(s)[6] == "PSSI:" && Tokens(s)[7] == DecimalText(s.gx)
    ensures Tokens(s)[8] == "PHI:" && Tokens(s)[9] == DecimalText(s.gy)
    ensures Tokens(s)[10] == "RHO:" && Tokens(s)[11] == DecimalText(s.gz)
  {
    InterleaveAt(LABELS, Values(s), 0);
    InterleaveAt(LABELS, Values(s), 1);
    InterleaveAt(LABELS, Values(s), 2);
    InterleaveAt(LABELS, Values(s), 3);
    InterleaveAt(LABELS, Values(s), 4);
    InterleaveAt(LABELS, Values(s), 5);
  }

  lemma ReadInt16OfValue(v: Int16)
    ensures ReadInt16(DecimalText(v)) == Some(v)
  {
    DecimalRoundTrip(v);
  }

  /** Every line the firmware sends is read back as its sample. */
  lemma RecordRoundTrip(s: Sample)
    ensures ReadRecord(RecordLine(s)) == Some(s)
  {
    var line := RecordLine(s);
    RecordLineShape(s);
    RecordTokens(s);
    assert Split(line[..|line| - 1], ' ') == Tokens(s);
    TokensLabelled(s);
    TokensRead(s);
  }

  /** The tokens of the line for s carry the six labels in order. */
  lemma TokensLabelled(s: Sample)
    ensures |Tokens(s)| == 12 && LabelsAt(Tokens(s))
  {
    TokensAt(s);
  }

  /** The value tokens of the line for s read back as the six values of s. */
  lemma TokensRead(s: Sample)
    ensures |Tokens(s)| == 12 && ReadValues(Tokens(s)) == Some(s)
  {
    var ts := Tokens(s);
    TokensAt(s);
    ReadInt16OfValue(s.ax);
    ReadInt16OfValue(s.ay);
    ReadInt16OfValue(s.az);
    ReadInt16OfValue(s.gx);
    ReadInt16OfValue(s.gy);
    ReadInt16OfValue(s.gz);
    assert ReadInt16(ts[1]) == Some(s.ax) && ReadInt16(ts[3]) == Some(s.ay) && ReadInt16(ts[5]) == Some(s.az);
    assert ReadInt16(ts[7]) == Some(s.gx) && ReadInt16(ts[9]) == Some(s.gy) && ReadInt16(ts[11]) == Some(s.gz);
  }

  /** What ReadRecord checked when it accepts a line as s. */
  lemma ReadRecordParts(line: string, s: Sample)
    requires ReadRecord(line) == Some(s)
    ensures |line| > 0 && line[|line| - 1] == '\n'
    ensures var ts := Split(line[..|line| - 1], ' ');
      |ts| == 12 && LabelsAt(ts) &&
      ts[1] == DecimalText(s.ax) && ts[3] == DecimalText(s.ay) && ts[5] == DecimalText(s.az) &&
      ts[7] == DecimalText(s.gx) && ts[9] == DecimalText(s.gy) && ts[11] == DecimalText(s.gz)
  {
    ReadValuesParts(Split(line[..|line| - 1], ' '), s);
  }

  lemma ReadValuesParts(ts: seq<string>, s: Sample)
    requires |ts| == 12 && ReadValues(ts) == Some(s)
    ensures ts[1] == DecimalText(s.ax) && ts[3] == DecimalText(s.ay) && ts[5] == DecimalText(s.az)
    ensures ts[7] == DecimalText(s.gx) && ts[9] == DecimalText(s.gy) && ts[11] == DecimalText(s.gz)
  {
    assert ReadInt16(ts[1]) == Some(s.ax) && ReadInt16(ts[3]) == Some(s.ay) && ReadInt16(ts[5]) == Some(s.az);
    assert ReadInt16(ts[7]) == Some(s.gx) && ReadInt16(ts[9]) == Some(s.gy) && ReadInt16(ts[11]) == Some(s.gz);
  }

  lemma TokensOfParts(ts: seq<string>, s: Sample)
    requires |ts| == 12 && LabelsAt(ts)
    requires ts[1] == DecimalText(s.ax) && ts[3] == DecimalText(s.ay) && ts[5] == DecimalText(s.az)
    requires ts[7] == DecimalText(s.gx) && ts[9] == DecimalText(s.gy) && ts[11] == DecimalText(s.gz)
    ensures ts == Tokens(s)
  {
    TokensAt(s);
    // Each k names the term ts[2 * k] that LabelsAt's quantifier is instantiated on.
    var k := 0;
    assert ts[2 * k] == LABELS[k];
    k := 1;
    assert ts[2 * k] == LABELS[k];
    k := 2;
    assert ts[2 * k] == LABELS[k];
    k := 3;
    assert ts[2 * k] == LABELS[k];
    k := 4;
    assert ts[2 * k] == LABELS[k];
    k := 5;
    assert ts[2 * k] == LABELS[k];
  }

  lemma LastNewline(line: string)
    requires |line| > 0 && line[|line| - 1] == '\n'
    ensures line == line[..|line| - 1] + "\n"
  {
  }

  /** Only the line the firmware sends for s is read as s. */
  lemma ReadRecordSound(line: string, s: Sample)
    requires ReadRecord(line) == Some(s)
    ensures line == RecordLine(s)
  {
    ReadRecordParts(line, s);
    var body := line[..|line| - 1];
    assert line == body + "\n" by {
      LastNewline(line);
    }
    TokensOfParts(Split(body, ' '), s);
    JoinSplit(body, ' ');
    LineJoin(LABELS, Values(s));
  }

  /** A line is read as s exactly when it is the line the firmware sends for s. */
  lemma ReadRecordExact(line: string, s: Sample)
    ensures ReadRecord(line) == Some(s) <==> line == RecordLine(s)
  {
    if ReadRecord(line) == Some(s) {
      ReadRecordSound(line, s);
    }
    if line == RecordLine(s) {
      RecordRoundTrip(s);
    }
  }
}
