/** The avatar (`components/ui/avatar.tsx`): a photo when one is given,
    otherwise the initials of the name. `toUpperCase` is passed in as
    `upper`, since the model has no Unicode case mapping. */
module Avatar {
  import opened Base
  import opened Text

  /** `getInitials`: the first character of the first two white-space
      separated words of the trimmed name, or of the only word, or `"?"`
      for a blank name; the result is upper-cased. So it is the upper-casing
      of one or two characters. */
  function GetInitials(name: string, upper: string -> string): (r: string)
    ensures exists s: string :: 1 <= |s| <= 2 && r == upper(s)
  {
    var r := InitialsOfFields(SplitOnSpaces(Trim(name)), upper);
    InitialsOfOneOrTwo(name, upper, r);
    r
  }

  /** `s[0]` as a string; `""` stands for `undefined` on an empty field,
      which `FieldsOfTrimmed` shows never reaches the initials. */
  function FirstChar(s: string): string
  {
    if s == [] then "" else [s[0]]
  }

  /** The initials of the fields of the trimmed name: the first characters of
      the first two fields, or of the only field, or `"?"` when that field is
      empty. */
  function InitialsOfFields(parts: seq<string>, upper: string -> string): string
  {
    if |parts| >= 2 then upper(FirstChar(parts[0]) + FirstChar(parts[1]))
    else upper(if |parts| == 1 && parts[0] != [] then [parts[0][0]] else "?")
  }

  /** The initials of a name are the upper-casing of one or two
      characters. */
  lemma InitialsOfOneOrTwo(name: string, upper: string -> string, r: string)
    requires r == InitialsOfFields(SplitOnSpaces(Trim(name)), upper)
    ensures exists s: string :: 1 <= |s| <= 2 && r == upper(s)
  {
    var t := Trim(name);
    var parts := SplitOnSpaces(t);
    FieldsOfTrimmed(t, parts);
    InitialsOfFieldsShape(parts, upper, r);
  }

  /** Fields as a trimmed name has them give one or two characters. */
  lemma InitialsOfFieldsShape(parts: seq<string>, upper: string -> string, r: string)
    requires |parts| >= 1 && (|parts| >= 2 ==> parts[0] != [] && parts[1] != [])
    requires r == InitialsOfFields(parts, upper)
    ensures exists s: string :: 1 <= |s| <= 2 && r == upper(s)
  {
    var s := if |parts| >= 2 then FirstChar(parts[0]) + FirstChar(parts[1])
             else if parts[0] != [] then [parts[0][0]] else "?";
    assert 1 <= |s| <= 2 && r == upper(s);
  }

  /** `getInitials` reads the fields of the trimmed name. */
  lemma InitialsOfFieldsOfName(name: string, upper: string -> string, t: string, parts: seq<string>)
    requires t == Trim(name) && parts == SplitOnSpaces(t)
    ensures |parts| >= 1 && (|parts| >= 2 ==> parts[0] != [] && parts[1] != [])
    ensures GetInitials(name, upper) == InitialsOfFields(parts, upper)
  {
    FieldsOfTrimmed(t, parts);
  }

  /** Two or more words: the initials of the first two, whatever white space
      surrounds or separates them and whatever words follow. */
  lemma InitialsOfTwoWords(pre: string, w1: string, sp: string, w2: string, post: string, upper: string -> string)
    requires IsBlank(pre)
    requires w1 != [] && NoSpace(w1) && w2 != [] && NoSpace(w2)
    requires sp != [] && IsBlank(sp)
    requires post == [] || IsSpace(post[0])
    ensures GetInitials(pre + w1 + sp + w2 + post, upper) == upper([w1[0], w2[0]])
  {
    var u := w1 + sp + w2;
    assert u[0] == w1[0] && u[|u| - 1] == w2[|w2| - 1];
    assert pre + w1 + sp + w2 + post == pre + u + post;
    TrimAroundVisible(pre, u, post);
    var q := TrimEnd(post);
    assert q == [] || q[0] == post[0];
    assert u + q == w1 + sp + w2 + q;
    var parts := SplitOnSpaces(u + q);
    FieldsOfTwoWords(w1, sp, w2, q, parts);
    InitialsOfFieldsOfName(pre + w1 + sp + w2 + post, upper, u + q, parts);
    InitialsOfTwoFields(parts, upper, w1, w2);
  }

  /** Two non-empty first fields give their first characters. */
  lemma InitialsOfTwoFields(parts: seq<string>, upper: string -> string, a: string, b: string)
    requires |parts| >= 2 && parts[0] == a && parts[1] == b && a != [] && b != []
    ensures InitialsOfFields(parts, upper) == upper([a[0], b[0]])
  {
    assert FirstChar(a) + FirstChar(b) == [a[0], b[0]];
  }

  /** The first two fields of two words and a rest that starts with white
      space are those words. */
  lemma FieldsOfTwoWords(w1: string, sp: string, w2: string, q: string, parts: seq<string>)
    requires w1 != [] && NoSpace(w1) && w2 != [] && NoSpace(w2)
    requires sp != [] && IsBlank(sp)
    requires q == [] || IsSpace(q[0])
    requires parts == SplitOnSpaces(w1 + sp + w2 + q)
    ensures |parts| >= 2 && parts[0] == w1 && parts[1] == w2
  {
    assert w1 + sp + w2 + q == w1 + sp + (w2 + q);
    assert (w2 + q)[0] == w2[0];
    SplitOnSpacesWord(w1, sp, w2 + q);
    SplitOnSpacesFirstField(w2, q);
  }

  /** A single word: its first character, whatever white space surrounds it. */
  lemma InitialsOfOneWord(pre: string, w: string, post: string, upper: string -> string)
    requires IsBlank(pre) && IsBlank(post)
    requires w != [] && NoSpace(w)
    ensures GetInitials(pre + w + post, upper) == upper([w[0]])
  {
    TrimAroundVisible(pre, w, post);
    TrimEndOfBlank(post);
    assert w + [] == w;
    SplitOnSpacesOneWord(w);
    InitialsOfFieldsOfName(pre + w + post, upper, w, [w]);
  }

  /** An empty or blank name shows a question mark, which `toUpperCase`
      leaves as it is. */
  lemma InitialsOfBlankName(name: string, upper: string -> string)
    requires IsBlank(name)
    requires upper("?") == "?"
    ensures GetInitials(name, upper) == "?"
  {
  }

  /** What the avatar shows. */
  datatype Face = Photo(src: string) | Initials(text: string)

  /** `src ? <img src={src}/> : getInitials(name)`: a missing or empty
      `src` falls back to the initials. */
  function AvatarFace(name: string, src: Option<string>, upper: string -> string): (f: Face)
    ensures f.Photo? <==> src.Some? && src.value != ""
    ensures f.Photo? ==> f.src == src.value
    ensures f.Initials? ==> f.text == GetInitials(name, upper)
  {
    if src.Some? && src.value != "" then Photo(src.value) else Initials(GetInitials(name, upper))
  }
}
