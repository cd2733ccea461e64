/**
 * `retrieve_card_info` of the render job: the card name and the optional
 * creator `{...}`, artist `(...)` and set `[...]` tags of an input filename.
 */
module FileTags {
  import opened Wrappers
  import opened Text

  /** The parsed filename: `None` for a tag kind that does not occur. */
  datatype FileTags = FileTags(name: string, artist: Option<string>, setCode: Option<string>, creator: Option<string>)

  /** `filename[:-4]`: the filename without its last four characters. */
  function DropExtension(filename: string): (r: string)
    ensures |filename| >= 4 ==> r == filename[..|filename| - 4]
    ensures |filename| < 4 ==> r == ""
  {
    if |filename| >= 4 then filename[..|filename| - 4] else ""
  }

  /** One of the separators `' {'`, `' ['`, `' ('` starts at index `i`. */
  predicate SeparatorAt(s: string, i: int) {
    0 <= i && i + 1 < |s| && s[i] == ' ' && s[i + 1] in {'{', '[', '('}
  }

  /** `re.split(' \{| \[| \(', s)[0]`: the text before the first separator, all of `s` if none. */
  function CutAtSeparator(s: string): (r: string)
    ensures |r| <= |s| && r == s[..|r|]
    ensures forall i :: 0 <= i < |r| ==> !SeparatorAt(s, i)
    ensures |r| < |s| ==> SeparatorAt(s, |r|)
  {
    if |s| < 2 then s
    else if SeparatorAt(s, 0) then ""
    else
      var rest := CutAtSeparator(s[1..]);
      var r := [s[0]] + rest;
      assert forall i :: 1 <= i < |r| ==> r[i] == rest[i - 1] && (SeparatorAt(s, i) <==> SeparatorAt(s[1..], i - 1));
      assert |r| < |s| ==> (SeparatorAt(s, |r|) <==> SeparatorAt(s[1..], |rest|));
      r
  }

  /** The characters before the first `close`, or None when a line break or the end comes first (`.*?` then `\}`). */
  function BodyUntil(s: string, close: char): (r: Option<string>)
    ensures r.Some? ==> |r.value| < |s| && s[..|r.value|] == r.value && s[|r.value|] == close
    ensures r.Some? ==> forall i :: 0 <= i < |r.value| ==> r.value[i] != close && r.value[i] != '\n'
  {
    if |s| == 0 || s[0] == '\n' then None
    else if s[0] == close then Some("")
    else
      match BodyUntil(s[1..], close)
      case None => None
      case Some(rest) => Some([s[0]] + rest)
  }

  /** The group of `open+(.*?)close` matched at the start of `s`: the whole run of openers is consumed first. */
  function MatchHere(s: string, open: char, close: char): (r: Option<string>)
    ensures r.Some? ==> |s| > 0 && s[0] == open
  {
    if |s| > 0 && s[0] == open then BodyUntil(LStrip(s, {open}), close) else None
  }

  /** `re.findall(open + '+(.*?)' + close, s)[0]`, or None when the list is empty. */
  function FindTag(s: string, open: char, close: char): (r: Option<string>)
    ensures r.Some? ==> open in s && close in s
    ensures r.Some? ==> forall i :: 0 <= i < |r.value| ==> r.value[i] != close && r.value[i] != '\n'
  {
    if |s| == 0 then None
    else if MatchHere(s, open, close).Some? then
      var body := MatchHere(s, open, close).value;
      var tail := LStrip(s, {open});
      assert tail[|body|] == close && tail == s[|s| - |tail|..];
      assert s[|s| - |tail| + |body|] == close;
      MatchHere(s, open, close)
    else
      var r := FindTag(s[1..], open, close);
      assert forall c :: c in s[1..] ==> c in s;
      r
  }

  /**
   * `retrieve_card_info`. The name is a prefix of the filename; each tag
   * found needs both its brackets in the filename and holds neither its
   * closer nor a line break.
   */
  function RetrieveCardInfo(filename: string): (r: FileTags)
    ensures |r.name| <= |filename| && r.name == filename[..|r.name|]
    ensures r.artist.Some? ==> '(' in filename && ')' in filename && ')' !in r.artist.value && '\n' !in r.artist.value
    ensures r.setCode.Some? ==> '[' in filename && ']' in filename && ']' !in r.setCode.value && '\n' !in r.setCode.value
    ensures r.creator.Some? ==> '{' in filename && '}' in filename && '}' !in r.creator.value && '\n' !in r.creator.value
  {
    FileTags(CutAtSeparator(DropExtension(filename)),
             FindTag(filename, '(', ')'),
             FindTag(filename, '[', ']'),
             FindTag(filename, '{', '}'))
  }

  /** `n` copies of `c`. */
  function Repeat(c: char, n: nat): (r: string)
    ensures |r| == n
  {
    if n == 0 then "" else [c] + Repeat(c, n - 1)
  }

  /** A text free of the tag's brackets and of line breaks. */
  predicate Clean(t: string, open: char, close: char) {
    open !in t && close !in t && '\n' !in t
  }

  lemma {:induction false} BodyUntilClean(body: string, close: char, rest: string)
    requires close != '\n' && close !in body && '\n' !in body
    ensures BodyUntil(body + [close] + rest, close) == Some(body)
    decreases |body|
  {
    if |body| == 0 {
      assert (body + [close] + rest)[0] == close;
    } else {
      assert (body + [close] + rest)[1..] == body[1..] + [close] + rest;
      BodyUntilClean(body[1..], close, rest);
      assert [body[0]] + body[1..] == body;
    }
  }

  lemma RepeatCons(c: char, n: nat, t: string)
    requires n > 0
    ensures Repeat(c, n) + t == [c] + (Repeat(c, n - 1) + t)
  {
    assert Repeat(c, n) == [c] + Repeat(c, n - 1);
  }

  lemma LStripCons(c: char, u: string)
    ensures LStrip([c] + u, {c}) == LStrip(u, {c})
  {
    assert ([c] + u)[1..] == u;
  }

  lemma {:induction false} LStripRun(open: char, n: nat, t: string)
    requires |t| > 0 ==> t[0] != open
    ensures LStrip(Repeat(open, n) + t, {open}) == t
    decreases n
  {
    if n == 0 {
      assert Repeat(open, n) + t == t;
    } else {
      var u := Repeat(open, n - 1) + t;
      RepeatCons(open, n, t);
      LStripCons(open, u);
      LStripRun(open, n - 1, t);
    }
  }

  /**
   * A tag is recovered from anywhere in a filename: behind text without an
   * opener, a run of one or more openers, then a clean body and the closer,
   * gives that body whatever follows.
   */
  lemma {:induction false} TagRecovered(prefix: string, open: char, n: nat, body: string, close: char, rest: string)
    requires open != close && close != '\n' && n >= 1
    requires open !in prefix && Clean(body, open, close)
    ensures FindTag(prefix + Repeat(open, n) + body + [close] + rest, open, close) == Some(body)
    decreases |prefix|
  {
    var s := prefix + Repeat(open, n) + body + [close] + rest;
    if |prefix| == 0 {
      assert s == Repeat(open, n) + (body + [close] + rest);
      LStripRun(open, n, body + [close] + rest);
      BodyUntilClean(body, close, rest);
      assert s[0] == open;
    } else {
      assert s[0] == prefix[0] && s[0] != open;
      assert s[1..] == prefix[1..] + Repeat(open, n) + body + [close] + rest;
      TagRecovered(prefix[1..], open, n, body, close, rest);
    }
  }

  /** A filename without opener characters has no tags. */
  lemma {:induction false} NoOpenerNoTag(s: string, open: char, close: char)
    requires open !in s
    ensures FindTag(s, open, close) == None
  {
  }

  /** `CutAtSeparator` stops exactly at a separator preceded by separator-free text. */
  lemma {:induction false} CutAtFirstSeparator(a: string, b: string)
    requires forall c :: c in a ==> c !in {'{', '[', '('}
    requires SeparatorAt(a + b, |a|)
    ensures CutAtSeparator(a + b) == a
    decreases |a|
  {
    var s := a + b;
    if |a| > 0 {
      if |a| > 1 {
        assert s[1] == a[1] && a[1] in a;
      }
      assert !SeparatorAt(s, 0);
      assert s[1..] == a[1..] + b;
      assert forall c :: c in a[1..] ==> c in a;
      CutAtFirstSeparator(a[1..], b);
      assert [a[0]] + a[1..] == a;
    }
  }

  /**
   * A filename with no bracket characters: the name is the whole filename
   * minus its last four characters, untrimmed, and every tag is None.
   */
  lemma UntaggedFilename(filename: string)
    requires forall c :: c in filename ==> c !in {'{', '[', '('}
    ensures RetrieveCardInfo(filename) == FileTags(DropExtension(filename), None, None, None)
  {
    var stem := DropExtension(filename);
    assert forall c :: c in stem ==> c in filename;
    NoOpenerNoTag(filename, '(', ')');
    NoOpenerNoTag(filename, '[', ']');
    NoOpenerNoTag(filename, '{', '}');
  }

  /** No bracket character of any kind and no line break. */
  predicate Plain(t: string) {
    forall c :: c in t ==> c !in {'{', '}', '[', ']', '(', ')', '\n'}
  }

  /** The filename layout `Name {Creator} (Artist) [SET].ext`. */
  function TaggedName(name: string, creator: string, artist: string, code: string, ext: string): string {
    name + " {" + creator + "} (" + artist + ") [" + code + "]" + ext
  }

  lemma TaggedNamePart(name: string, creator: string, artist: string, code: string, ext: string)
    requires Plain(name) && |ext| == 4
    ensures CutAtSeparator(DropExtension(TaggedName(name, creator, artist, code, ext))) == name
  {
    var tail := " {" + creator + "} (" + artist + ") [" + code + "]";
    assert DropExtension(TaggedName(name, creator, artist, code, ext)) == name + tail;
    CutAtFirstSeparator(name, tail);
  }

  lemma TaggedCreatorPart(name: string, creator: string, artist: string, code: string, ext: string)
    requires Plain(name) && Plain(creator)
    ensures FindTag(TaggedName(name, creator, artist, code, ext), '{', '}') == Some(creator)
  {
    var rest := " (" + artist + ") [" + code + "]" + ext;
    assert TaggedName(name, creator, artist, code, ext) == (name + " ") + Repeat('{', 1) + creator + ['}'] + rest;
    TagRecovered(name + " ", '{', 1, creator, '}', rest);
  }

  lemma TaggedArtistPart(name: string, creator: string, artist: string, code: string, ext: string)
    requires Plain(name) && Plain(creator) && Plain(artist)
    ensures FindTag(TaggedName(name, creator, artist, code, ext), '(', ')') == Some(artist)
  {
    var before := name + " {" + creator + "} ";
    var rest := " [" + code + "]" + ext;
    assert TaggedName(name, creator, artist, code, ext) == before + Repeat('(', 1) + artist + [')'] + rest;
    TagRecovered(before, '(', 1, artist, ')', rest);
  }

  lemma TaggedSetPart(name: string, creator: string, artist: string, code: string, ext: string)
    requires Plain(name) && Plain(creator) && Plain(artist) && Plain(code)
    ensures FindTag(TaggedName(name, creator, artist, code, ext), '[', ']') == Some(code)
  {
    var before := name + " {" + creator + "} (" + artist + ") ";
    assert TaggedName(name, creator, artist, code, ext) == before + Repeat('[', 1) + code + [']'] + ext;
    TagRecovered(before, '[', 1, code, ']', ext);
  }

  /**
   * `Name {Creator} (Artist) [SET].ext` with plain parts and a four-character
   * extension gives back each part in its field.
   */
  lemma TaggedFilename(name: string, creator: string, artist: string, code: string, ext: string)
    requires Plain(name) && Plain(creator) && Plain(artist) && Plain(code) && |ext| == 4
    ensures RetrieveCardInfo(TaggedName(name, creator, artist, code, ext)) == FileTags(name, Some(artist), Some(code), Some(creator))
  {
    TaggedNamePart(name, creator, artist, code, ext);
    TaggedCreatorPart(name, creator, artist, code, ext);
    TaggedArtistPart(name, creator, artist, code, ext);
    TaggedSetPart(name, creator, artist, code, ext);
  }
}
