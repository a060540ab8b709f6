/** The markdown journal directory of backend/app/storage/file_storage.py: file names
    derived from titles, and the directory as a map from file name to content. */
module FileStorage {
  import opened Wrappers
  import opened Strings
  import opened Models

  // ---------------------------------------------------------------------------
  // Filename sanitisation
  // ---------------------------------------------------------------------------

  const MaxNameLength: nat := 50
  const DefaultName := "untitled"

  /** The characters of the class `[<>:"/\\|?*]`. */
  predicate Unsafe(c: char) {
    c == '<' || c == '>' || c == ':' || c == '"' || c == '/' || c == '\\' || c == '|' || c == '?' || c == '*'
  }

  predicate IsHyphen(c: char) {
    c == '-'
  }

  predicate IsUpper(c: char) {
    'A' <= c <= 'Z'
  }

  /** No two neighbouring hyphens. */
  predicate NoDoubleHyphen(s: string) {
    forall i :: 0 <= i < |s| - 1 ==> !(s[i] == '-' && s[i + 1] == '-')
  }

  /** No unsafe character and no space. */
  ghost predicate Plain(s: string) {
    forall i :: 0 <= i < |s| ==> !Unsafe(s[i]) && s[i] != ' '
  }

  /** `re.sub(r'[<>:"/\\|?*]', '', s)`: the safe characters, in order. */
  function RemoveUnsafe(s: string): (r: string)
    ensures |r| <= |s|
    ensures forall i :: 0 <= i < |r| ==> !Unsafe(r[i])
    ensures (forall i :: 0 <= i < |s| ==> !Unsafe(s[i])) ==> r == s
  {
    if |s| == 0 then ""
    else
      var rest := RemoveUnsafe(s[1..]);
      if Unsafe(s[0]) then rest else [s[0]] + rest
  }

  /** `s.replace(' ', '-')`. */
  function SpacesToHyphens(s: string): (r: string)
    ensures |r| == |s|
    ensures forall i :: 0 <= i < |s| ==> r[i] == (if s[i] == ' ' then '-' else s[i])
  {
    seq(|s|, i requires 0 <= i < |s| => if s[i] == ' ' then '-' else s[i])
  }

  /** `re.sub(r'-+', '-', s)`: every run of hyphens becomes one hyphen. */
  function CollapseHyphens(s: string): (r: string)
    ensures |r| <= |s| && NoDoubleHyphen(r)
    ensures |s| > 0 ==> |r| > 0 && r[0] == s[0]
    ensures Plain(s) ==> Plain(r)
  {
    if |s| <= 1 then s
    else if s[0] == '-' && s[1] == '-' then CollapseHyphens(s[1..])
    else [s[0]] + CollapseHyphens(s[1..])
  }

  /** The characters other than hyphens. */
  function WithoutHyphens(s: string): string {
    if |s| == 0 then "" else (if s[0] == '-' then "" else [s[0]]) + WithoutHyphens(s[1..])
  }

  /** Collapsing only shortens runs of hyphens: the other characters are kept, in order. */
  lemma {:induction false} CollapseKeepsOthers(s: string)
    ensures WithoutHyphens(CollapseHyphens(s)) == WithoutHyphens(s)
    decreases |s|
  {
    if |s| <= 1 {
    } else if s[0] == '-' && s[1] == '-' {
      CollapseKeepsOthers(s[1..]);
    } else {
      CollapseKeepsOthers(s[1..]);
      var r := [s[0]] + CollapseHyphens(s[1..]);
      assert r[1..] == CollapseHyphens(s[1..]);
    }
  }

  /** A string without a double hyphen is left alone. */
  lemma {:induction false} CollapseIdentity(s: string)
    requires NoDoubleHyphen(s)
    ensures CollapseHyphens(s) == s
    decreases |s|
  {
    if |s| > 1 {
      CollapseIdentity(s[1..]);
    }
  }

  /** The first three steps: unsafe characters dropped, spaces to hyphens, runs collapsed. */
  function Cleaned(title: string): string {
    CollapseHyphens(SpacesToHyphens(RemoveUnsafe(title)))
  }

  /** The next two: cut to 50 characters, hyphens stripped from both ends. */
  function Cut(c: string): string {
    Trim(Slice(c, 0, MaxNameLength), IsHyphen)
  }

  /** `or "untitled"`. */
  function Named(e: string): string {
    if e == "" then DefaultName else e
  }

  /** `_sanitize_filename`: drop unsafe characters, spaces to hyphens, collapse hyphen runs,
      cut to 50 characters, strip hyphens, "untitled" when nothing is left, lower case. */
  function Sanitize(title: string): string {
    Lower(Named(Cut(Cleaned(title))))
  }

  /** What every sanitised name looks like. */
  predicate SafeName(r: string) {
    && 0 < |r| <= MaxNameLength
    && (forall i :: 0 <= i < |r| ==> !Unsafe(r[i]) && r[i] != ' ' && !IsUpper(r[i]))
    && NoDoubleHyphen(r)
    && r[0] != '-' && r[|r| - 1] != '-'
  }

  /** A name before lower-casing: what `SafeName` demands except the letter case. */
  ghost predicate Shaped(f: string) {
    0 < |f| <= MaxNameLength && Plain(f) && NoDoubleHyphen(f) && f[0] != '-' && f[|f| - 1] != '-'
  }

  lemma CleanedFacts(title: string)
    ensures Plain(Cleaned(title)) && NoDoubleHyphen(Cleaned(title))
  {
    var b := SpacesToHyphens(RemoveUnsafe(title));
    assert Plain(b);
  }

  /** A contiguous piece of a string keeps its characters and lacks double hyphens when
      the string does. */
  lemma PieceKeeps(s: string, lo: nat, hi: nat)
    requires lo <= hi <= |s| && NoDoubleHyphen(s) && Plain(s)
    ensures NoDoubleHyphen(s[lo..hi]) && Plain(s[lo..hi])
  {
    var p := s[lo..hi];
    assert forall i :: 0 <= i < |p| ==> p[i] == s[lo + i];
  }

  /** `strip('-')` takes a contiguous piece, starting at `lo`. */
  lemma TrimIsPiece(s: string) returns (lo: nat)
    ensures lo + |Trim(s, IsHyphen)| <= |s| && Trim(s, IsHyphen) == s[lo..lo + |Trim(s, IsHyphen)|]
  {
    var l := TrimLeft(s, IsHyphen);
    TrimLeftSpec(s, IsHyphen);
    TrimRightSpec(l, IsHyphen);
    lo := |s| - |l|;
  }

  lemma CutFacts(c: string)
    requires Plain(c) && NoDoubleHyphen(c)
    ensures var e := Cut(c);
            |e| <= MaxNameLength && Plain(e) && NoDoubleHyphen(e)
            && (|e| > 0 ==> e[0] != '-' && e[|e| - 1] != '-')
  {
    var h := if |c| <= MaxNameLength then |c| else MaxNameLength;
    var d := Slice(c, 0, MaxNameLength);
    assert d == c[0..h];
    PieceKeeps(c, 0, h);
    var e := Trim(d, IsHyphen);
    var lo := TrimIsPiece(d);
    PieceKeeps(d, lo, lo + |e|);
    TrimSpec(d, IsHyphen);
  }

  lemma DefaultShaped()
    ensures Shaped(DefaultName)
  {
  }

  /** Lower-casing keeps the non-letters and removes upper-case letters. */
  lemma LowerChars(c: char)
    ensures !IsUpper(LowerChar(c))
    ensures !IsUpper(c) ==> LowerChar(c) == c
    ensures Unsafe(LowerChar(c)) == Unsafe(c) && (LowerChar(c) == ' ') == (c == ' ')
    ensures (LowerChar(c) == '-') == (c == '-')
  {
  }

  lemma LowerShaped(f: string)
    requires Shaped(f)
    ensures SafeName(Lower(f))
  {
    var r := Lower(f);
    forall i | 0 <= i < |r|
      ensures !Unsafe(r[i]) && r[i] != ' ' && !IsUpper(r[i])
    {
      LowerChars(f[i]);
    }
    forall i | 0 <= i < |r| - 1
      ensures !(r[i] == '-' && r[i + 1] == '-')
    {
      LowerChars(f[i]);
      LowerChars(f[i + 1]);
    }
    LowerChars(f[0]);
    LowerChars(f[|f| - 1]);
  }

  /** A sanitised name is non-empty, at most 50 characters, free of the unsafe characters
      and of spaces, without a double hyphen, without a hyphen at either end, and has no
      upper-case letter. */
  lemma SanitizeSafe(title: string)
    ensures SafeName(Sanitize(title))
  {
    CleanedFacts(title);
    CutFacts(Cleaned(title));
    DefaultShaped();
    LowerShaped(Named(Cut(Cleaned(title))));
  }

  lemma LowerIdentity(s: string)
    requires forall i :: 0 <= i < |s| ==> !IsUpper(s[i])
    ensures Lower(s) == s
  {
    var l := Lower(s);
    forall i | 0 <= i < |s|
      ensures l[i] == s[i]
    {
      LowerChars(s[i]);
    }
  }

  lemma CleanedIdentity(r: string)
    requires Plain(r) && NoDoubleHyphen(r)
    ensures Cleaned(r) == r
  {
    assert RemoveUnsafe(r) == r;
    assert SpacesToHyphens(r) == r;
    CollapseIdentity(r);
  }

  /** A name that already looks sanitised is its own sanitisation. */
  lemma SanitizeFixesSafeNames(r: string)
    requires SafeName(r)
    ensures Sanitize(r) == r
  {
    CleanedIdentity(r);
    assert Slice(r, 0, MaxNameLength) == r;
    TrimIdentity(r, IsHyphen);
    LowerIdentity(r);
  }

  /** Sanitising twice is sanitising once. */
  lemma SanitizeIdempotent(title: string)
    ensures Sanitize(Sanitize(title)) == Sanitize(title)
  {
    SanitizeSafe(title);
    SanitizeFixesSafeNames(Sanitize(title));
  }

  /** A title of plain characters (nothing unsafe, no space, no hyphen) is cut to 50
      characters and lower-cased. */
  lemma PlainTitle(title: string)
    requires |title| > 0
    requires forall i :: 0 <= i < |title| ==> !Unsafe(title[i]) && title[i] != ' ' && title[i] != '-'
    ensures Sanitize(title) == Lower(title[..if |title| <= MaxNameLength then |title| else MaxNameLength])
  {
    CleanedIdentity(title);
    var h := if |title| <= MaxNameLength then |title| else MaxNameLength;
    TrimIdentity(title[..h], IsHyphen);
  }

  /** Illustration: 100 `A`s become 50 `a`s, an instance of `PlainTitle`. */
  lemma SanitizeLongTitle()
    ensures Sanitize(seq(100, _ => 'A')) == seq(50, _ => 'a')
  {
    var t := seq(100, _ => 'A');
    PlainTitle(t);
    assert Lower(t[..50]) == seq(50, _ => 'a');
  }

  /** Letters and digits, the characters every step leaves alone apart from the case. */
  ghost predicate Word(w: string) {
    |w| > 0 && forall i :: 0 <= i < |w| ==> !Unsafe(w[i]) && w[i] != ' ' && w[i] != '-'
  }

  /** Two words separated by a space, together within 50 characters, become the two
      lower-cased words separated by a hyphen ("Hello World" becomes "hello-world"). */
  lemma TwoWords(w1: string, w2: string)
    requires Word(w1) && Word(w2) && |w1| + 1 + |w2| <= MaxNameLength
    ensures Sanitize(w1 + " " + w2) == Lower(w1) + "-" + Lower(w2)
  {
    var t := w1 + " " + w2;
    var h := w1 + "-" + w2;
    assert RemoveUnsafe(t) == t;
    assert SpacesToHyphens(t) == h;
    assert NoDoubleHyphen(h);
    CollapseIdentity(h);
    assert Cleaned(t) == h;
    assert Slice(h, 0, MaxNameLength) == h;
    TrimIdentity(h, IsHyphen);
    assert Named(Cut(h)) == h;
    LowerConcat(w1 + "-", w2);
    LowerConcat(w1, "-");
    LowerHyphen();
  }

  lemma LowerHyphen()
    ensures Lower("-") == "-"
  {
    var c := '-';
    LowerChars(c);
    assert Lower([c]) == [LowerChar(c)];
  }

  lemma LowerConcat(a: string, b: string)
    ensures Lower(a + b) == Lower(a) + Lower(b)
  {
    var l := Lower(a + b);
    assert forall i :: 0 <= i < |a| ==> l[i] == LowerChar(a[i]);
    assert forall i :: 0 <= i < |b| ==> l[|a| + i] == LowerChar(b[i]);
  }

  lemma SanitizeEmpty()
    ensures Sanitize("") == DefaultName
  {
  }

  /** A run of hyphens after a hyphen-free-ending name collapses to one hyphen. */
  lemma {:induction false} CollapseHyphenTail(x: string)
    requires |x| > 0 && NoDoubleHyphen(x) && x[|x| - 1] != '-'
    ensures CollapseHyphens(x + "---") == x + "-"
  {
    var s := x + "---";
    if |x| == 1 {
      assert s[1..] == "---";
      assert CollapseHyphens("---") == CollapseHyphens("--") == CollapseHyphens("-") == "-";
    } else {
      assert s[1..] == x[1..] + "---";
      CollapseHyphenTail(x[1..]);
      assert s == [x[0]] + s[1..];
    }
  }

  /** Safe characters without spaces pass the first two steps unchanged. */
  lemma PlainUntouched(t: string)
    requires Plain(t)
    ensures RemoveUnsafe(t) == t && SpacesToHyphens(t) == t
  {
  }

  lemma PlainFramed(x: string)
    requires Plain(x)
    ensures Plain("---" + x + "---")
  {
    var t := "---" + x + "---";
    forall i | 0 <= i < |t|
      ensures !Unsafe(t[i]) && t[i] != ' '
    {
      if 3 <= i < 3 + |x| {
        assert t[i] == x[i - 3];
      }
    }
  }

  lemma CollapseDouble(s: string)
    requires |s| >= 2 && s[0] == '-' && s[1] == '-'
    ensures CollapseHyphens(s) == CollapseHyphens(s[1..])
  {
  }

  lemma CollapseSingle(s: string)
    requires |s| >= 2 && !(s[0] == '-' && s[1] == '-')
    ensures CollapseHyphens(s) == [s[0]] + CollapseHyphens(s[1..])
  {
  }

  /** Both runs of hyphens around a name collapse to one hyphen. */
  lemma CollapseFrame(x: string)
    requires |x| > 0 && NoDoubleHyphen(x) && x[0] != '-' && x[|x| - 1] != '-'
    ensures CollapseHyphens("---" + x + "---") == "-" + x + "-"
  {
    var rest := x + "---";
    var t := "---" + x + "---";
    var a := t[1..];
    var b := a[1..];
    assert b == "-" + rest && b[1..] == rest && b[1] == x[0];
    CollapseDouble(t);
    CollapseDouble(a);
    CollapseSingle(b);
    CollapseHyphenTail(x);
  }

  /** Stripping the hyphens from a hyphen-framed name gives the name. */
  lemma TrimFrame(x: string)
    requires |x| > 0 && x[0] != '-' && x[|x| - 1] != '-'
    ensures Trim("-" + x + "-", IsHyphen) == x
  {
    var h := "-" + x + "-";
    var l := x + "-";
    assert h[1..] == l && IsHyphen(h[0]);
    assert TrimLeft(h, IsHyphen) == TrimLeft(l, IsHyphen);
    assert l[0] == x[0] && !IsHyphen(l[0]);
    assert TrimLeft(l, IsHyphen) == l;
    assert l[..|l| - 1] == x && IsHyphen(l[|l| - 1]);
    assert TrimRight(l, IsHyphen) == TrimRight(x, IsHyphen);
    assert !IsHyphen(x[|x| - 1]);
  }

  /** A name framed by runs of hyphens: the runs collapse, the cut strips them
      ("---Leading-Hyphens---" becomes "leading-hyphens"). */
  lemma FramedByHyphens(x: string)
    requires Shaped(x) && |x| + 2 <= MaxNameLength
    ensures Sanitize("---" + x + "---") == Lower(x)
  {
    var t := "---" + x + "---";
    PlainFramed(x);
    PlainUntouched(t);
    CollapseFrame(x);
    var h := "-" + x + "-";
    assert Cleaned(t) == h;
    assert Slice(h, 0, MaxNameLength) == h;
    TrimFrame(x);
  }

  // ---------------------------------------------------------------------------
  // The directory
  // ---------------------------------------------------------------------------

  /** The name of a new journal file: the timestamp, the sanitised title, ".md". */
  function NewFileName(title: string, timestamp: int, cal: Calendar): (name: string)
    ensures EndsWith(name, ".md")
    ensures StartsWith(name, cal.fileStamp(timestamp) + "_" + Sanitize(title))
  {
    var name := cal.fileStamp(timestamp) + "_" + Sanitize(title) + ".md";
    assert name[|name| - 3..] == ".md";
    name
  }

  /** `list_journals` keeps only the `*.md` names. */
  function MarkdownNames(names: seq<string>): (r: seq<string>)
    ensures forall n :: n in r <==> n in names && EndsWith(n, ".md")
  {
    if |names| == 0 then []
    else (if EndsWith(names[0], ".md") then [names[0]] else []) + MarkdownNames(names[1..])
  }

  /** The journal directory. `byAge` lists the file names from the most recently written
      to the least, standing for the modification times `list_journals` sorts by. */
  class FileStore {
    var files: map<string, string>
    var byAge: seq<string>

    ghost predicate Valid()
      reads this
    {
      (forall n :: n in files <==> n in byAge) && Distinct(byAge)
    }

    constructor ()
      ensures Valid() && files == map[] && byAge == []
    {
      files := map[];
      byAge := [];
    }

    /** The name `save_journal` writes to: the given name when it is non-empty, a new name
        from the title and timestamp otherwise. */
    static function TargetName(title: string, timestamp: int, filename: Option<string>, cal: Calendar): (name: string)
      ensures filename.Some? && filename.value != "" ==> name == filename.value
      ensures filename.None? || filename.value == "" ==> name == NewFileName(title, timestamp, cal)
    {
      if filename.Some? && filename.value != "" then filename.value else NewFileName(title, timestamp, cal)
    }

    /** `get_journal`: the content of an existing file, not-found otherwise. */
    function GetJournal(filename: string): (r: Result<string, Error>)
      reads this
      ensures r.Success? <==> filename in files
      ensures r.Success? ==> r.value == files[filename]
      ensures r.Failure? ==> r.error == JournalNotFound(filename)
    {
      if filename in files then Success(files[filename]) else Failure(JournalNotFound(filename))
    }

    /** `list_journals`: the markdown files, most recently written first. */
    function ListJournals(): (names: seq<string>)
      reads this
      requires Valid()
      ensures forall n :: n in names <==> n in files && EndsWith(n, ".md")
      ensures Distinct(names)
    {
      MarkdownNamesKeepDistinct(byAge);
      MarkdownNames(byAge)
    }

    /** `save_journal`: writes the content under the target name (creating or overwriting
        the file), which becomes the most recently written; other files are untouched. */
    method SaveJournal(content: string, title: string, timestamp: int, filename: Option<string>, cal: Calendar)
      returns (name: string)
      requires Valid()
      modifies this
      ensures Valid()
      ensures name == TargetName(title, timestamp, filename, cal)
      ensures files == old(files)[name := content]
      ensures byAge == [name] + Without(old(byAge), name)
      ensures GetJournal(name) == Success(content)
      ensures forall n :: n != name ==> GetJournal(n) == old(GetJournal(n))
    {
      name := TargetName(title, timestamp, filename, cal);
      var others := Without(byAge, name);
      assert name !in others;
      files := files[name := content];
      byAge := [name] + others;
    }

    /** `delete_journal`: removes an existing file; a missing one is not-found and nothing
        changes. */
    method DeleteJournal(filename: string) returns (o: Outcome<Error>)
      requires Valid()
      modifies this
      ensures Valid()
      ensures o.Pass? <==> filename in old(files)
      ensures o.Fail? ==> o.error == JournalNotFound(filename) && files == old(files) && byAge == old(byAge)
      ensures o.Pass? ==> files == old(files) - {filename} && byAge == Without(old(byAge), filename)
      ensures GetJournal(filename).Failure? && filename !in ListJournals()
      ensures forall n :: n != filename ==> GetJournal(n) == old(GetJournal(n))
    {
      if filename !in files {
        return Fail(JournalNotFound(filename));
      }
      files := files - {filename};
      byAge := Without(byAge, filename);
      return Pass;
    }
  }

  lemma MarkdownNamesKeepDistinct(names: seq<string>)
    requires Distinct(names)
    ensures Distinct(MarkdownNames(names))
  {
    if |names| > 0 {
      MarkdownNamesKeepDistinct(names[1..]);
      assert names[0] !in names[1..];
    }
  }

  /** A newly created journal is always listed: its name ends in ".md". */
  lemma NewFileListed(title: string, timestamp: int, cal: Calendar, byAge: seq<string>)
    ensures var name := NewFileName(title, timestamp, cal);
            name in MarkdownNames([name] + Without(byAge, name))
            && MarkdownNames([name] + Without(byAge, name))[0] == name
  {
    var name := NewFileName(title, timestamp, cal);
    assert ([name] + Without(byAge, name))[1..] == Without(byAge, name);
  }
}
