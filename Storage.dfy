/**
 * Reading the backing file. Only the step before JSON decoding is
 * modelled: stored text that is empty or white space throughout means an
 * empty task list, anything else goes to the decoder.
 */
module Storage {
  import opened TaskList

  /** White space in the sense of Unicode's White_Space property, which is
    * what trimming uses: the ASCII blanks, NEL, NBSP and the wide spaces. */
  predicate IsSpace(c: char)
  {
    c == '\t' || c == '\n' || c == '\U{0B}' || c == '\U{0C}' || c == '\r' || c == ' ' ||
    c == '\U{85}' || c == '\U{A0}' || c == '\U{1680}' ||
    ('\U{2000}' <= c <= '\U{200A}') ||
    c == '\U{2028}' || c == '\U{2029}' || c == '\U{202F}' || c == '\U{205F}' || c == '\U{3000}'
  }

  /** Every character of `s` is white space. */
  predicate Blank(s: string)
  {
    forall i :: 0 <= i < |s| ==> IsSpace(s[i])
  }

  /** `s` without its leading white space. */
  function TrimLeft(s: string): (r: string)
    ensures |r| <= |s| && r == s[|s| - |r|..]
    ensures Blank(s[..|s| - |r|])
    ensures r == [] || !IsSpace(r[0])
  {
    if s != [] && IsSpace(s[0]) then
      var r := TrimLeft(s[1..]);
      assert s[..|s| - |r|] == [s[0]] + s[1..][..|s| - 1 - |r|];
      r
    else s
  }

  /** `s` without its trailing white space. */
  function TrimRight(s: string): (r: string)
    ensures |r| <= |s| && r == s[..|r|]
    ensures Blank(s[|r|..])
    ensures r == [] || !IsSpace(r[|r| - 1])
  {
    if s != [] && IsSpace(s[|s| - 1]) then
      var r := TrimRight(s[..|s| - 1]);
      assert s[|r|..] == s[..|s| - 1][|r|..] + [s[|s| - 1]];
      r
    else s
  }

  /** `s` without white space at either end. */
  function TrimSpace(s: string): (r: string)
  {
    TrimRight(TrimLeft(s))
  }

  /** Trimming leaves nothing exactly when the text is white space
    * throughout; otherwise what is left is a slice of the text that
    * starts and ends with a character that is not white space. */
  lemma TrimSpaceEmptyIffBlank(s: string)
    ensures TrimSpace(s) == [] <==> Blank(s)
    ensures TrimSpace(s) != [] ==>
      !IsSpace(TrimSpace(s)[0]) && !IsSpace(TrimSpace(s)[|TrimSpace(s)| - 1])
  {
    var l := TrimLeft(s);
    var r := TrimRight(l);
    if r == [] {
      assert l[|r|..] == l;
      assert s == s[..|s| - |l|] + l;
    } else {
      assert l != [] && l[0] == r[0];
      assert !IsSpace(s[|s| - |l|]);
    }
  }

  /** What reading the stored text gives before decoding. */
  datatype Read = Tasks(tasks: seq<Task>) | Decode(text: string)

  /** Blank text is the empty task list; any other text is handed, whole
    * and untrimmed, to the JSON decoder, which is not part of this model. */
  function ReadTasks(data: string): (r: Read)
    ensures r == Tasks([]) <==> Blank(data)
    ensures r.Decode? <==> !Blank(data)
    ensures r.Decode? ==> r.text == data
  {
    TrimSpaceEmptyIffBlank(data);
    if |TrimSpace(data)| == 0 then Tasks([]) else Decode(data)
  }
}
