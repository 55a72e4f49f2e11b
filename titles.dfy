/**
 * The file-name sanitiser of `download_video` (app.py:52) and the scratch
 * paths built from the title it returns (app.py:62, app.py:138).
 */
module Titles {

  /** The ASCII letters and digits: the part of Python's `str.isalnum` this model keeps. */
  predicate IsAlnum(c: char) {
    ('a' <= c <= 'z') || ('A' <= c <= 'Z') || ('0' <= c <= '9')
  }

  /** Exactly the characters for which Python's `str.isspace` holds. */
  predicate IsSpace(c: char) {
    || c == ' '
    || ('\t' <= c <= '\r')
    || ('\U{1C}' <= c <= '\U{1F}')
    || c == '\U{85}' || c == '\U{A0}' || c == '\U{1680}'
    || ('\U{2000}' <= c <= '\U{200A}')
    || c == '\U{2028}' || c == '\U{2029}' || c == '\U{202F}'
    || c == '\U{205F}' || c == '\U{3000}'
  }

  /** A character the sanitiser copies unchanged. */
  predicate Kept(c: char) {
    IsAlnum(c) || IsSpace(c)
  }

  /** What one character of the title becomes. */
  function SafeChar(c: char): char {
    if Kept(c) then c else '_'
  }

  /** The safe title: the title with every character that is not kept replaced by `_`. */
  function SafeTitle(title: string): (safe: string)
    ensures |safe| == |title|
  {
    if title == [] then [] else [SafeChar(title[0])] + SafeTitle(title[1..])
  }

  /** Position `i` of the safe title is the image of position `i` of the title. */
  lemma {:induction false} SafeTitleAt(title: string, i: nat)
    requires i < |title|
    ensures SafeTitle(title)[i] == SafeChar(title[i])
  {
    if i > 0 {
      SafeTitleAt(title[1..], i - 1);
    }
  }

  /** A kept character stays in place; any other character becomes `_`. */
  lemma {:induction false} KeptInPlace(title: string, i: nat)
    requires i < |title|
    ensures Kept(title[i]) ==> SafeTitle(title)[i] == title[i]
    ensures !Kept(title[i]) ==> SafeTitle(title)[i] == '_'
  {
    SafeTitleAt(title, i);
  }

  /** Only letters and digits, whitespace and `_` appear in a safe title. */
  lemma {:induction false} OnlySafeChars(title: string)
    ensures forall i :: 0 <= i < |SafeTitle(title)| ==>
      IsAlnum(SafeTitle(title)[i]) || IsSpace(SafeTitle(title)[i]) || SafeTitle(title)[i] == '_'
  {
    forall i | 0 <= i < |SafeTitle(title)|
      ensures IsAlnum(SafeTitle(title)[i]) || IsSpace(SafeTitle(title)[i]) || SafeTitle(title)[i] == '_'
    {
      SafeTitleAt(title, i);
    }
  }

  /** The titles the sanitiser leaves alone are exactly those made of kept characters and `_`. */
  lemma {:induction false} FixedPoints(title: string)
    ensures SafeTitle(title) == title <==> forall i :: 0 <= i < |title| ==> Kept(title[i]) || title[i] == '_'
  {
    if SafeTitle(title) == title {
      forall i | 0 <= i < |title| ensures Kept(title[i]) || title[i] == '_' {
        SafeTitleAt(title, i);
      }
    }
    if forall i :: 0 <= i < |title| ==> Kept(title[i]) || title[i] == '_' {
      forall i | 0 <= i < |title| ensures SafeTitle(title)[i] == title[i] {
        SafeTitleAt(title, i);
      }
    }
  }

  /** Sanitising twice is sanitising once. */
  lemma {:induction false} Idempotent(title: string)
    ensures SafeTitle(SafeTitle(title)) == SafeTitle(title)
  {
    var safe := SafeTitle(title);
    forall i | 0 <= i < |safe| ensures Kept(safe[i]) || safe[i] == '_' {
      SafeTitleAt(title, i);
    }
    FixedPoints(safe);
  }

  /** Distinct titles can share a safe title, hence a scratch path. */
  lemma DistinctTitlesCollide()
    ensures "a/b" != "a?b" && SafeTitle("a/b") == SafeTitle("a?b") == "a_b"
  {
  }

  /**
   * Two titles share a scratch path exactly when they have the same length
   * and agree position by position once each character is sanitised.
   */
  lemma {:induction false} SharedScratchPath(a: string, b: string)
    ensures AudioPath(SafeTitle(a)) == AudioPath(SafeTitle(b)) <==>
      |a| == |b| && forall i :: 0 <= i < |a| ==> SafeChar(a[i]) == SafeChar(b[i])
  {
    if AudioPath(SafeTitle(a)) == AudioPath(SafeTitle(b)) {
      AudioPathInjective(SafeTitle(a), SafeTitle(b));
      forall i | 0 <= i < |a| ensures SafeChar(a[i]) == SafeChar(b[i]) {
        SafeTitleAt(a, i);
        SafeTitleAt(b, i);
      }
    }
    if |a| == |b| && forall i :: 0 <= i < |a| ==> SafeChar(a[i]) == SafeChar(b[i]) {
      forall i | 0 <= i < |a| ensures SafeTitle(a)[i] == SafeTitle(b)[i] {
        SafeTitleAt(a, i);
        SafeTitleAt(b, i);
      }
      assert SafeTitle(a) == SafeTitle(b);
    }
  }

  /** The scratch directory downloads are written to. */
  const ScratchDir := "downloaded_videos"

  /** The path of the extracted mp3 that is transcribed and deleted (app.py:138). */
  function AudioPath(safe: string): (p: string)
    ensures |p| == |ScratchDir| + 1 + |safe| + 4
    ensures p[..|ScratchDir| + 1] == ScratchDir + "/"
    ensures p[|ScratchDir| + 1..|p| - 4] == safe
    ensures p[|p| - 4..] == ".mp3"
  {
    ScratchDir + "/" + safe + ".mp3"
  }

  /**
   * The output template handed to the downloader (app.py:62): the mp3 path
   * with the extension left for the downloader to fill in.
   */
  function OutputTemplate(safe: string): (t: string)
    ensures t == AudioPath(safe)[..|AudioPath(safe)| - 3] + "%(ext)s"
  {
    ScratchDir + "/" + safe + ".%(ext)s"
  }

  /** The path determines the safe title it was built from. */
  lemma {:induction false} AudioPathInjective(a: string, b: string)
    requires AudioPath(a) == AudioPath(b)
    ensures a == b
  {
  }

  /**
   * The audio path of any title names a file directly inside the scratch
   * directory: its only `/` is the directory separator and its only `.`
   * starts the `.mp3` extension.
   */
  lemma {:induction false} AudioPathStaysInScratchDir(title: string)
    ensures var p := AudioPath(SafeTitle(title));
      && p[..|ScratchDir| + 1] == ScratchDir + "/"
      && p[|ScratchDir| + 1..|p| - 4] == SafeTitle(title)
      && p[|p| - 4..] == ".mp3"
      && (forall i :: 0 <= i < |p| ==> (p[i] == '/' <==> i == |ScratchDir|))
      && (forall i :: 0 <= i < |p| ==> (p[i] == '.' <==> i == |p| - 4))
  {
    var safe := SafeTitle(title);
    var p := AudioPath(safe);
    var n := |ScratchDir| + 1;
    assert p[n..|p| - 4] == safe;
    forall i | 0 <= i < |p| ensures (p[i] == '/' <==> i == |ScratchDir|) && (p[i] == '.' <==> i == |p| - 4) {
      if i < |ScratchDir| {
        assert p[i] == ScratchDir[i];
      } else if n <= i < |p| - 4 {
        assert p[i] == safe[i - n];
        SafeTitleAt(title, i - n);
      } else if i >= |p| - 4 {
        assert p[i] == ".mp3"[i - (|p| - 4)];
      }
    }
  }
}
