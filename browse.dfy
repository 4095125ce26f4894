/**
 * The local folder browser's filename filter: of a directory listing it
 * keeps, in listing order, the names whose lower-cased form ends with
 * ".png", ".jpg" or ".jpeg".
 */
module Browse {

  /**
   * Lower-casing of one character; only ASCII letters change. The result is
   * never an upper-case letter, and a character that is not one is left alone.
   */
  function ToLower(c: char): (d: char)
    ensures !('A' <= d <= 'Z')
    ensures !('A' <= c <= 'Z') <==> d == c
  {
    if 'A' <= c <= 'Z' then (c as int + 32) as char else c
  }

  /** Lower-casing of a string, character by character; no upper-case letter survives it. */
  function Lower(s: string): (r: string)
    ensures |r| == |s|
    ensures forall i :: 0 <= i < |s| ==> r[i] == ToLower(s[i])
    ensures forall i :: 0 <= i < |r| ==> !('A' <= r[i] <= 'Z')
  {
    seq(|s|, i requires 0 <= i < |s| => ToLower(s[i]))
  }

  /** Lower-casing works on each part of a concatenation separately. */
  lemma LowerAppend(a: string, b: string)
    ensures Lower(a + b) == Lower(a) + Lower(b)
  {
  }

  /** Lower-casing twice is lower-casing once. */
  lemma LowerIdempotent(s: string)
    ensures Lower(Lower(s)) == Lower(s)
  {
  }

  /** Whether s ends with suffix. */
  predicate EndsWith(s: string, suffix: string) {
    |suffix| <= |s| && s[|s| - |suffix|..] == suffix
  }

  /**
   * Any string followed by a suffix ends with it, and a string that ends
   * with a suffix still does with anything put in front of it.
   */
  lemma EndsWithExtend(p: string, s: string, suffix: string)
    ensures EndsWith(p + suffix, suffix)
    ensures EndsWith(s, suffix) ==> EndsWith(p + s, suffix)
  {
    assert (p + suffix)[|p + suffix| - |suffix|..] == suffix;
    if EndsWith(s, suffix) {
      assert (p + s)[|p + s| - |suffix|..] == s[|s| - |suffix|..];
    }
  }

  /** The extensions the folder browser lists. */
  const ImageExtensions: seq<string> := [".png", ".jpg", ".jpeg"]

  /**
   * The extension test of the folder browser, case-insensitive: the
   * lower-cased name ends with one of the image extensions.
   */
  function HasImageExtension(name: string): (b: bool)
    ensures b <==> exists ext :: ext in ImageExtensions && EndsWith(Lower(name), ext)
    ensures b ==> 4 <= |name|
  {
    var lower := Lower(name);
    EndsWith(lower, ".png") || EndsWith(lower, ".jpg") || EndsWith(lower, ".jpeg")
  }

  /** The test does not depend on letter case: a name passes exactly when its lower-cased form does. */
  lemma HasImageExtensionCaseInsensitive(name: string)
    ensures HasImageExtension(Lower(name)) <==> HasImageExtension(name)
  {
    LowerIdempotent(name);
  }

  /** The listed names that pass the extension test, in listing order. */
  function ImageFiles(names: seq<string>): (r: seq<string>)
    ensures |r| <= |names|
    ensures forall x :: x in r <==> x in names && HasImageExtension(x)
    decreases |names|
  {
    if names == [] then []
    else (if HasImageExtension(names[0]) then [names[0]] else []) + ImageFiles(names[1..])
  }

  /** a is b with some elements left out, the rest in their original order. */
  predicate IsSubsequence(a: seq<string>, b: seq<string>)
    decreases |b|
  {
    if a == [] then true
    else if b == [] then false
    else if a[0] == b[0] then IsSubsequence(a[1..], b[1..])
    else IsSubsequence(a, b[1..])
  }

  /** The filter only drops names; it never reorders or invents them. */
  lemma {:induction false} ImageFilesIsSubsequence(names: seq<string>)
    ensures IsSubsequence(ImageFiles(names), names)
    decreases |names|
  {
    if names != [] {
      ImageFilesIsSubsequence(names[1..]);
      var rest := ImageFiles(names[1..]);
      if !HasImageExtension(names[0]) {
        assert ImageFiles(names) == rest;
        if rest != [] {
          assert rest[0] in rest && HasImageExtension(rest[0]);
          assert rest[0] != names[0];
        }
      }
    }
  }

  /** Filtering a concatenated listing is filtering each part. */
  lemma {:induction false} ImageFilesAppend(a: seq<string>, b: seq<string>)
    ensures ImageFiles(a + b) == ImageFiles(a) + ImageFiles(b)
    decreases |a|
  {
    if a != [] {
      assert (a + b)[1..] == a[1..] + b;
      ImageFilesAppend(a[1..], b);
    } else {
      assert a + b == b;
    }
  }

  /** Filtering an already filtered listing changes nothing. */
  lemma {:induction false} ImageFilesIdempotent(names: seq<string>)
    ensures ImageFiles(ImageFiles(names)) == ImageFiles(names)
    decreases |names|
  {
    if names != [] {
      ImageFilesIdempotent(names[1..]);
      var head := if HasImageExtension(names[0]) then [names[0]] else [];
      ImageFilesAppend(head, ImageFiles(names[1..]));
    }
  }

  /** Upper-case extensions pass; a bare extension word or another extension does not. */
  lemma ExtensionExamples()
    ensures HasImageExtension("Box_01.JPG") && HasImageExtension("scan.jpeg")
    ensures !HasImageExtension("notes.txt") && !HasImageExtension("png")
  {
    assert Lower("Box_01.JPG")[6..] == ".jpg";
    assert Lower("scan.jpeg")[4..] == ".jpeg";
    assert Lower("notes.txt") == "notes.txt";
    assert Lower("png") == "png";
  }
}
