/** The text of one entry of the password log written by "save password".
    The clock reading and the file append stay outside: the timestamp comes
    in already formatted, and the entry is returned as a string. */
module PasswordLog {
  import opened Text

  const NoteLabel: string := "备注: "
  const PasswordLabel: string := "密码: "
  /** Shown in place of a note that is empty after stripping. */
  const NoNote: string := "无"
  const SeparatorWidth: nat := 40

  /** The note as the entry shows it: stripped, or the placeholder. */
  function ShownNote(note: string): (r: string)
    ensures r != [] && Trimmed(r)
    ensures Blank(note) ==> r == NoNote
    ensures !Blank(note) ==> r == Strip(note)
    ensures forall i :: 0 <= i < |r| ==> r[i] in note || r == NoNote
  {
    StripEmptyIffBlank(note);
    var stripped := Strip(note);
    if stripped != [] then stripped else NoNote
  }

  /** One log entry: a leading newline, the bracketed timestamp, the note
      line, the password line and a rule of 40 dashes, with no newline at
      the end. */
  function Record(timestamp: string, note: string, password: string): string {
    "\n[" + timestamp + "]\n" + NoteLabel + ShownNote(note) + "\n" +
    PasswordLabel + password + "\n" + Repeat('-', SeparatorWidth)
  }

  /** Index of the first newline of `s`, or `|s|` when there is none. */
  function NewlineIndex(s: string): (i: nat)
    ensures i <= |s|
    ensures forall j :: 0 <= j < i ==> s[j] != '\n'
    ensures i < |s| ==> s[i] == '\n'
  {
    if s == [] || s[0] == '\n' then 0 else 1 + NewlineIndex(s[1..])
  }

  /** The lines of `s`, as Python's `s.split('\n')` gives them. */
  function SplitLines(s: string): (r: seq<string>)
    ensures |r| >= 1
    decreases |s|
  {
    var i := NewlineIndex(s);
    if i == |s| then [s] else [s[..i]] + SplitLines(s[i + 1..])
  }

  /** `"\n".join(lines)`. */
  function JoinLines(lines: seq<string>): string
    requires |lines| >= 1
  {
    if |lines| == 1 then lines[0] else lines[0] + "\n" + JoinLines(lines[1..])
  }

  /** Joining lines that hold no newline and splitting again gives them back. */
  lemma {:induction false} SplitJoin(lines: seq<string>)
    requires |lines| >= 1
    requires forall k :: 0 <= k < |lines| ==> '\n' !in lines[k]
    ensures SplitLines(JoinLines(lines)) == lines
  {
    var s := JoinLines(lines);
    var first := lines[0];
    if |lines| == 1 {
      assert NewlineIndex(s) == |s|;
    } else {
      var rest := JoinLines(lines[1..]);
      assert s == first + "\n" + rest;
      assert s[|first|] == '\n';
      var i := NewlineIndex(s);
      assert i == |first|;
      assert s[..i] == first;
      assert s[i + 1..] == rest;
      SplitJoin(lines[1..]);
    }
  }

  lemma JoinFive(a: string, b: string, c: string, d: string, e: string)
    ensures JoinLines([a, b, c, d, e]) == a + "\n" + b + "\n" + c + "\n" + d + "\n" + e
  {
    var lines := [a, b, c, d, e];
    assert JoinLines(lines[4..]) == e;
    assert JoinLines(lines[3..]) == d + "\n" + e;
    assert JoinLines(lines[2..]) == c + "\n" + (d + "\n" + e);
    assert JoinLines(lines[1..]) == b + "\n" + (c + "\n" + (d + "\n" + e));
  }

  /** The entry, written as its five lines joined by newlines. */
  lemma RecordJoin(timestamp: string, note: string, password: string)
    ensures Record(timestamp, note, password) ==
      JoinLines(["", "[" + timestamp + "]", NoteLabel + ShownNote(note),
                 PasswordLabel + password, Repeat('-', SeparatorWidth)])
  {
    var shown, dashes := ShownNote(note), Repeat('-', SeparatorWidth);
    assert "\n[" == "\n" + "[";
    assert "]\n" == "]" + "\n";
    Assoc5(timestamp, shown, password, dashes);
    JoinFive("", "[" + timestamp + "]", NoteLabel + shown, PasswordLabel + password, dashes);
  }

  lemma Assoc5(timestamp: string, shown: string, password: string, dashes: string)
    ensures "\n" + "[" + timestamp + ("]" + "\n") + NoteLabel + shown + "\n" + PasswordLabel + password + "\n" + dashes
         == "" + "\n" + ("[" + timestamp + "]") + "\n" + (NoteLabel + shown) + "\n" + (PasswordLabel + password) + "\n" + dashes
  {
  }

  /** Read back line by line, an entry gives its five lines: an empty one,
      the bracketed timestamp, the note line, the password line and the
      dashes; so the password and the note can be recovered from the log. */
  lemma RecordLines(timestamp: string, note: string, password: string)
    requires '\n' !in timestamp && '\n' !in note && '\n' !in password
    ensures SplitLines(Record(timestamp, note, password)) ==
      ["", "[" + timestamp + "]", NoteLabel + ShownNote(note),
       PasswordLabel + password, Repeat('-', SeparatorWidth)]
  {
    var shown, dashes := ShownNote(note), Repeat('-', SeparatorWidth);
    NoNewline("[", timestamp);
    NoNewline("[" + timestamp, "]");
    NoNewline(NoteLabel, shown);
    NoNewline(PasswordLabel, password);
    RecordJoin(timestamp, note, password);
    SplitFive("", "[" + timestamp + "]", NoteLabel + shown, PasswordLabel + password, dashes);
  }

  lemma SplitFive(a: string, b: string, c: string, d: string, e: string)
    requires '\n' !in a && '\n' !in b && '\n' !in c && '\n' !in d && '\n' !in e
    ensures SplitLines(JoinLines([a, b, c, d, e])) == [a, b, c, d, e]
  {
    SplitJoin([a, b, c, d, e]);
  }

  lemma NoNewline(a: string, b: string)
    requires '\n' !in a && '\n' !in b
    ensures '\n' !in a + b
  {
  }
}
