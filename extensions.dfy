/** `parse_file_extensions`: the type, compression and encryption
    extensions at the end of a chunk file name,
    `<name>[.fc|.sc][.xz|.gz|.sz][.gpg]`. The model follows how Python's
    `re.match` runs `.*?(\.(fc|sc))?(\.(xz|gz|sz))?(\.gpg)?$`: the lazy prefix
    grows one non-newline character at a time, at each position the three
    optional groups are tried present before absent, and `$` accepts the
    end of the string or a final newline. */
module FileExtensions {
  import opened Common

  datatype Extensions = Extensions(kind: Option<string>, compression: Option<string>, encryption: Option<string>)

  const NoExtensions := Extensions(None, None, None)

  predicate WellFormed(x: Extensions)
  {
    x.kind in {None, Some("fc"), Some("sc")} &&
    x.compression in {None, Some("xz"), Some("gz"), Some("sz")} &&
    x.encryption in {None, Some("gpg")}
  }

  function Part(p: Option<string>): string
  {
    if p.Some? then "." + p.value else ""
  }

  /** The suffix a set of extensions spells. */
  function Render(x: Extensions): string
  {
    Part(x.kind) + Part(x.compression) + Part(x.encryption)
  }

  /** Where `$` matches. */
  predicate AtEnd(r: string)
  {
    r == "" || r == "\n"
  }

  /** `\.(fc|sc)` at the head of `r`. */
  function KindAt(r: string): (t: Option<string>)
    ensures t.Some? ==> t in {Some("fc"), Some("sc")} && |r| >= 3 && r[..3] == Part(t)
  {
    if |r| >= 3 && r[0] == '.' && (r[1] == 'f' || r[1] == 's') && r[2] == 'c' then
      assert r[..3] == [r[0], r[1], r[2]];
      Some(if r[1] == 'f' then "fc" else "sc")
    else None
  }

  /** `\.(xz|gz|sz)` at the head of `r`. */
  function CompressionAt(r: string): (c: Option<string>)
    ensures c.Some? ==> c in {Some("xz"), Some("gz"), Some("sz")} && |r| >= 3 && r[..3] == Part(c)
  {
    if |r| >= 3 && r[0] == '.' && (r[1] == 'x' || r[1] == 'g' || r[1] == 's') && r[2] == 'z' then
      assert r[..3] == [r[0], r[1], r[2]];
      Some(if r[1] == 'x' then "xz" else if r[1] == 'g' then "gz" else "sz")
    else None
  }

  predicate GpgAt(r: string)
  {
    |r| >= 4 && r[0] == '.' && r[1] == 'g' && r[2] == 'p' && r[3] == 'g'
  }

  /** `(\.gpg)?$` against the rest of the input. */
  function MatchEncryption(r: string): (m: Option<Option<string>>)
    ensures m.Some? ==> m.value in {None, Some("gpg")} && StartsWith(r, Part(m.value)) && AtEnd(r[|Part(m.value)|..])
  {
    if GpgAt(r) && AtEnd(r[4..]) then Some(Some("gpg"))
    else if AtEnd(r) then Some(None)
    else None
  }

  /** `(\.(xz|gz|sz))?(\.gpg)?$`, the group tried present first. */
  function MatchCompression(r: string): (m: Option<(Option<string>, Option<string>)>)
    ensures m.Some? ==> m.value.0 in {None, Some("xz"), Some("gz"), Some("sz")} && m.value.1 in {None, Some("gpg")}
    ensures m.Some? ==> var p := Part(m.value.0) + Part(m.value.1); StartsWith(r, p) && AtEnd(r[|p|..])
  {
    var c := CompressionAt(r);
    if c.Some? && MatchEncryption(r[3..]).Some? then
      var e := MatchEncryption(r[3..]).value;
      StartsWithThen(r, Part(c), Part(e));
      Some((c, e))
    else if MatchEncryption(r).Some? then Some((None, MatchEncryption(r).value))
    else None
  }

  /** The three groups and `$` against the input left after the prefix. */
  function MatchGroups(r: string): (m: Option<Extensions>)
    ensures m.Some? ==> WellFormed(m.value) && StartsWith(r, Render(m.value)) && AtEnd(r[|Render(m.value)|..])
  {
    var t := KindAt(r);
    if t.Some? && MatchCompression(r[3..]).Some? then
      var ce := MatchCompression(r[3..]).value;
      StartsWithThen(r, Part(t), Part(ce.0) + Part(ce.1));
      assert Part(t) + (Part(ce.0) + Part(ce.1)) == Render(Extensions(t, ce.0, ce.1));
      Some(Extensions(t, ce.0, ce.1))
    else if MatchCompression(r).Some? then
      var ce := MatchCompression(r).value;
      Some(Extensions(None, ce.0, ce.1))
    else None
  }

  lemma StartsWithThen(r: string, a: string, b: string)
    requires StartsWith(r, a) && StartsWith(r[|a|..], b)
    ensures StartsWith(r, a + b) && r[|a + b|..] == r[|a|..][|b|..]
  {
    assert r[..|a + b|] == r[..|a|] + r[|a|..][..|b|];
  }

  /** The lazy `.*?`: the first prefix length, from `k` on, after which the
      groups match; `.` never crosses a newline. */
  function Search(s: string, k: nat): (r: Option<(nat, Extensions)>)
    requires k <= |s|
    ensures r.Some? ==> k <= r.value.0 <= |s| && MatchGroups(s[r.value.0..]) == Some(r.value.1)
    decreases |s| - k
  {
    if MatchGroups(s[k..]).Some? then Some((k, MatchGroups(s[k..]).value))
    else if k < |s| && s[k] != '\n' then Search(s, k + 1)
    else None
  }

  /** `parse_file_extensions(path)`: no match gives three Nones. */
  function ParseFileExtensions(path: string): Extensions
  {
    var m := Search(path, 0);
    if m.Some? then m.value.1 else NoExtensions
  }

  lemma RenderStartsWithDot(x: Extensions)
    ensures Render(x) != "" ==> Render(x)[0] == '.'
  {
  }

  /** The groups match only at a '.' or at the end. */
  lemma MatchGroupsHead(r: string)
    ensures MatchGroups(r).Some? ==> AtEnd(r) || r[0] == '.'
  {
    var m := MatchGroups(r);
    if m.Some? && Render(m.value) != "" {
      RenderStartsWithDot(m.value);
      assert r[0] == r[..|Render(m.value)|][0];
    }
  }

  lemma NoMatchAt(r: string)
    requires r != "" && r != "\n" && r[0] != '.'
    ensures MatchGroups(r).None?
  {
    MatchGroupsHead(r);
  }

  lemma MatchEncryptionComplete(e: Option<string>, tail: string)
    requires e in {None, Some("gpg")} && AtEnd(tail)
    ensures MatchEncryption(Part(e) + tail).Some?
  {
    var r := Part(e) + tail;
    if e.Some? {
      assert r[4..] == tail;
      assert r[..4] == ".gpg";
      assert GpgAt(r);
    } else {
      assert r == tail;
    }
  }

  lemma MatchCompressionComplete(c: Option<string>, e: Option<string>, tail: string)
    requires c in {None, Some("xz"), Some("gz"), Some("sz")} && e in {None, Some("gpg")} && AtEnd(tail)
    ensures MatchCompression(Part(c) + (Part(e) + tail)).Some?
  {
    var r := Part(c) + (Part(e) + tail);
    MatchEncryptionComplete(e, tail);
    if c.Some? {
      assert r[3..] == Part(e) + tail;
      assert r[..3] == Part(c);
      assert CompressionAt(r).Some?;
    } else {
      assert r == Part(e) + tail;
    }
  }

  lemma MatchGroupsIntro(r: string)
    ensures (KindAt(r).Some? && MatchCompression(r[3..]).Some?) || MatchCompression(r).Some? ==> MatchGroups(r).Some?
  {
  }

  lemma KindAtPart(t: Option<string>, rest: string)
    requires t in {Some("fc"), Some("sc")}
    ensures KindAt(Part(t) + rest) == t && (Part(t) + rest)[3..] == rest
  {
    var r := Part(t) + rest;
    assert r[0] == '.' && r[1] == t.value[0] && r[2] == t.value[1];
  }

  lemma RenderAssoc(x: Extensions, tail: string)
    ensures Render(x) + tail == Part(x.kind) + (Part(x.compression) + (Part(x.encryption) + tail))
  {
  }

  /** A well-formed suffix followed by the end is always matched (perhaps by
      a different choice of groups). */
  lemma MatchGroupsComplete(x: Extensions, tail: string)
    requires WellFormed(x) && AtEnd(tail)
    ensures MatchGroups(Render(x) + tail).Some?
  {
    var r := Render(x) + tail;
    var ce := Part(x.compression) + (Part(x.encryption) + tail);
    MatchCompressionComplete(x.compression, x.encryption, tail);
    RenderAssoc(x, tail);
    assert r == Part(x.kind) + ce;
    if x.kind.Some? {
      KindAtPart(x.kind, ce);
      assert KindAt(r).Some? && MatchCompression(r[3..]).Some?;
    } else {
      assert Part(x.kind) == "";
      assert r == ce;
    }
    MatchGroupsIntro(r);
  }

  lemma {:induction false} SearchSucceeds(s: string, k: nat)
    requires k <= |s| && '\n' !in s
    ensures Search(s, k).Some?
    decreases |s| - k
  {
    if k == |s| {
      assert s[k..] == "";
      assert MatchGroups("") == Some(NoExtensions);
    } else if MatchGroups(s[k..]).None? {
      SearchSucceeds(s, k + 1);
    }
  }

  /** Search stops no later than any position where the groups match. */
  lemma {:induction false} SearchStopsBy(s: string, k: nat, j: nat)
    requires k <= j <= |s| && '\n' !in s
    requires MatchGroups(s[j..]).Some?
    ensures Search(s, k).Some? && Search(s, k).value.0 <= j
    decreases j - k
  {
    if MatchGroups(s[k..]).None? {
      assert k < j;
      assert s[k] in s;
      SearchStopsBy(s, k + 1, j);
    }
  }

  lemma NoNewlineSuffix(path: string, j: nat)
    requires '\n' !in path && j <= |path|
    ensures path[j..] != "\n"
  {
    if j < |path| {
      assert path[j] in path;
      assert path[j..][0] == path[j];
    }
  }

  /** Without newlines the search succeeds and the groups take all the
      input after the lazy prefix. */
  lemma FoundSuffix(path: string)
    requires '\n' !in path
    ensures Search(path, 0).Some?
    ensures path[Search(path, 0).value.0..] == Render(Search(path, 0).value.1)
  {
    SearchSucceeds(path, 0);
    var k := Search(path, 0).value.0;
    var r := path[k..];
    var x := MatchGroups(r).value;
    var n := |Render(x)|;
    assert r[n..] == path[k + n..];
    NoNewlineSuffix(path, k + n);
    assert r == r[..n];
  }

  /** For a path without newlines the result is well formed and is exactly
      what the path ends with. */
  lemma ParseSound(path: string)
    requires '\n' !in path
    ensures WellFormed(ParseFileExtensions(path))
    ensures EndsWith(path, Render(ParseFileExtensions(path)))
  {
    FoundSuffix(path);
  }

  /** No well-formed suffix of the path is longer than the one found. */
  lemma ParseLongest(path: string, x: Extensions)
    requires '\n' !in path
    requires WellFormed(x) && EndsWith(path, Render(x))
    ensures |Render(x)| <= |Render(ParseFileExtensions(path))|
  {
    var j := |path| - |Render(x)|;
    assert path[j..] == Render(x) + "";
    MatchGroupsComplete(x, "");
    SearchStopsBy(path, 0, j);
    FoundSuffix(path);
  }

  lemma CancelRight(a: string, b: string, c: string, d: string)
    requires a + c == b + d && |c| == |d|
    ensures a == b && c == d
  {
    assert a == (a + c)[..|a|];
    assert b == (b + d)[..|b|];
    assert c == (a + c)[|a|..];
    assert d == (b + d)[|b|..];
  }

  /** The last character of a well-formed rendering tells which part is
      last: 'g' for encryption, 'z' for compression, 'c' for the type. */
  lemma LastChar(x: Extensions)
    requires WellFormed(x)
    ensures x.encryption.Some? ==> Render(x)[|Render(x)| - 1] == 'g'
    ensures x.encryption.None? && x.compression.Some? ==> Render(x)[|Render(x)| - 1] == 'z'
    ensures x.encryption.None? && x.compression.None? && x.kind.Some? ==> Render(x)[|Render(x)| - 1] == 'c'
  {
  }

  /** A suffix spells one set of extensions only, so the longest suffix
      determines the result. */
  lemma RenderInjective(x: Extensions, y: Extensions)
    requires WellFormed(x) && WellFormed(y) && Render(x) == Render(y)
    ensures x == y
  {
    LastChar(x);
    LastChar(y);
    assert x.encryption == y.encryption;
    CancelRight(Part(x.kind) + Part(x.compression), Part(y.kind) + Part(y.compression), Part(x.encryption), Part(y.encryption));
    var kx := Extensions(x.kind, x.compression, None);
    var ky := Extensions(y.kind, y.compression, None);
    assert Render(kx) == Render(ky);
    LastChar(kx);
    LastChar(ky);
    assert x.compression.Some? <==> y.compression.Some?;
    CancelRight(Part(x.kind), Part(y.kind), Part(x.compression), Part(y.compression));
    if x.compression.Some? {
      assert x.compression.value == Part(x.compression)[1..];
      assert y.compression.value == Part(y.compression)[1..];
    }
    assert x.kind.Some? <==> y.kind.Some?;
    if x.kind.Some? {
      assert x.kind.value == Part(x.kind)[1..];
      assert y.kind.value == Part(y.kind)[1..];
    }
  }

  /** The result is the longest well-formed suffix of a newline-free path. */
  lemma ParseIsLongestSuffix(path: string, x: Extensions)
    requires '\n' !in path
    requires WellFormed(x) && EndsWith(path, Render(x))
    requires forall y :: WellFormed(y) && EndsWith(path, Render(y)) ==> |Render(y)| <= |Render(x)|
    ensures ParseFileExtensions(path) == x
  {
    var r := ParseFileExtensions(path);
    ParseSound(path);
    ParseLongest(path, x);
    assert |Render(r)| == |Render(x)|;
    assert Render(r) == path[|path| - |Render(x)|..] == Render(x);
    RenderInjective(r, x);
  }

  lemma ExampleFullSuffix()
    ensures ParseFileExtensions("dog.sc.gz.gpg") == Extensions(Some("sc"), Some("gz"), Some("gpg"))
  {
    var s := "dog.sc.gz.gpg";
    NoMatchAt(s[0..]);
    NoMatchAt(s[1..]);
    NoMatchAt(s[2..]);
    var r := s[3..];
    assert r == ".sc.gz.gpg";
    assert KindAt(r) == Some("sc");
    assert r[3..] == ".gz.gpg";
    assert CompressionAt(r[3..]) == Some("gz");
    assert r[3..][3..] == ".gpg";
    assert MatchEncryption(r[3..][3..]) == Some(Some("gpg"));
    assert MatchGroups(r) == Some(Extensions(Some("sc"), Some("gz"), Some("gpg")));
  }

  lemma ExampleCompressionOnly()
    ensures ParseFileExtensions("dog.gz") == Extensions(None, Some("gz"), None)
  {
    var s := "dog.gz";
    NoMatchAt(s[0..]);
    NoMatchAt(s[1..]);
    NoMatchAt(s[2..]);
    var r := s[3..];
    assert r == ".gz";
    assert KindAt(r) == None;
    assert CompressionAt(r) == Some("gz");
    assert MatchEncryption(r[3..]) == Some(None);
    assert MatchGroups(r) == Some(Extensions(None, Some("gz"), None));
  }

  lemma ExampleBareName()
    ensures ParseFileExtensions("dog") == NoExtensions
  {
    var s := "dog";
    NoMatchAt(s[0..]);
    NoMatchAt(s[1..]);
    NoMatchAt(s[2..]);
    assert s[3..] == "";
    assert MatchGroups("") == Some(NoExtensions);
  }

  /** A newline before the end makes the whole match fail. */
  lemma ExampleInnerNewline()
    ensures ParseFileExtensions("a\nb.gz") == NoExtensions
  {
    var s := "a\nb.gz";
    NoMatchAt(s[0..]);
    assert s[1..] == "\nb.gz";
    assert MatchEncryption(s[1..]).None?;
    assert MatchGroups(s[1..]).None?;
  }

  /** `$` also matches before a final newline. */
  lemma ExampleFinalNewline()
    ensures ParseFileExtensions("dog.gz\n") == Extensions(None, Some("gz"), None)
  {
    var s := "dog.gz\n";
    NoMatchAt(s[0..]);
    NoMatchAt(s[1..]);
    NoMatchAt(s[2..]);
    var r := s[3..];
    assert r == ".gz\n";
    assert KindAt(r) == None;
    assert CompressionAt(r) == Some("gz");
    assert r[3..] == "\n";
    assert MatchEncryption(r[3..]) == Some(None);
    assert MatchGroups(r) == Some(Extensions(None, Some("gz"), None));
  }
}
