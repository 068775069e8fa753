/**
 * The pathlib behaviour the driver relies on, for POSIX paths: the normal form
 * `str(Path(s))` (repeated slashes and "." pieces dropped, a trailing slash dropped, "."
 * for the empty path) and joining a one-piece name onto a directory.
 */
module Paths {
  import opened Strings

  /** `s.split("/")`: the text between slashes, empty pieces included. */
  function Segments(s: string): (parts: seq<string>)
    ensures |parts| >= 1
    ensures forall k :: 0 <= k < |parts| ==> '/' !in parts[k]
    decreases |s|
  {
    var (head, found, tail) := Partition(s, '/');
    if found then [head] + Segments(tail) else [s]
  }

  /** The pieces that name something: empty pieces and "." are dropped, ".." is kept. */
  function Named(parts: seq<string>): (r: seq<string>)
    ensures forall k :: 0 <= k < |r| ==> r[k] != "" && r[k] != "." && r[k] in parts
  {
    if parts == [] then []
    else (if parts[0] == "" || parts[0] == "." then [] else [parts[0]]) + Named(parts[1..])
  }

  /** `"/".join(parts)`. */
  function Unsplit(parts: seq<string>): string {
    if parts == [] then "" else if |parts| == 1 then parts[0] else parts[0] + "/" + Unsplit(parts[1..])
  }

  /** The root pathlib keeps: exactly two leading slashes stay two; one, or three or more, become one. */
  function Anchor(s: string): string {
    if StartsWith(s, "//") && !StartsWith(s, "///") then "//"
    else if StartsWith(s, "/") then "/"
    else ""
  }

  /** `str(Path(s))`: the root followed by the named pieces, or "." when both are empty. */
  function Normalize(s: string): string {
    var body := Unsplit(Named(Segments(s)));
    if Anchor(s) == "" && body == "" then "." else Anchor(s) + body
  }

  /** `str(Path(s)) == "."`. */
  predicate IsCurrentDir(s: string) {
    Normalize(s) == "."
  }

  /** `Path(dir) / name` for a directory in normal form and a relative one-piece name. */
  function Join(dir: string, name: string): string {
    JoinPrefix(dir) + name
  }

  function JoinPrefix(dir: string): string {
    if dir == "" || dir == "." then "" else if dir[|dir| - 1] == '/' then dir else dir + "/"
  }

  lemma JoinInjective(dir: string, a: string, b: string)
    requires Join(dir, a) == Join(dir, b)
    ensures a == b
  {
    assert a == Join(dir, a)[|JoinPrefix(dir)|..];
    assert b == Join(dir, b)[|JoinPrefix(dir)|..];
  }

  // ---------------------------------------------------------------------------------
  // Properties

  /** Partition splits at the first separator, so a separator-free head is found intact. */
  lemma {:induction false} PartitionAt(a: string, sep: char, b: string)
    requires sep !in a
    ensures Partition(a + [sep] + b, sep) == (a, true, b)
    decreases |a|
  {
    var s := a + [sep] + b;
    if a != [] {
      assert s[0] == a[0] && s[1..] == a[1..] + [sep] + b;
      PartitionAt(a[1..], sep, b);
      assert [a[0]] + a[1..] == a;
    }
  }

  /** Splitting at slashes and joining with slashes gives the path back. */
  lemma {:induction false} UnsplitSegments(s: string)
    ensures Unsplit(Segments(s)) == s
    decreases |s|
  {
    var (head, found, tail) := Partition(s, '/');
    if found {
      UnsplitSegments(tail);
      var rest := Segments(tail);
      assert Segments(s) == [head] + rest;
      assert ([head] + rest)[1..] == rest;
    }
  }

  /** Joining slash-free pieces with slashes and splitting again gives the pieces back. */
  lemma {:induction false} SegmentsUnsplit(parts: seq<string>)
    requires |parts| >= 1 && forall k :: 0 <= k < |parts| ==> '/' !in parts[k]
    ensures Segments(Unsplit(parts)) == parts
    decreases |parts|
  {
    if |parts| > 1 {
      SegmentsUnsplit(parts[1..]);
      PartitionAt(parts[0], '/', Unsplit(parts[1..]));
      assert parts == [parts[0]] + parts[1..];
    }
  }

  lemma {:induction false} NamedEmpty(parts: seq<string>)
    ensures Named(parts) == [] <==> forall k :: 0 <= k < |parts| ==> parts[k] == "" || parts[k] == "."
    decreases |parts|
  {
    if parts != [] {
      NamedEmpty(parts[1..]);
      forall k | 1 <= k < |parts| ensures parts[k] == parts[1..][k - 1] { }
    }
  }

  lemma UnsplitEmpty(parts: seq<string>)
    requires forall k :: 0 <= k < |parts| ==> parts[k] != ""
    ensures Unsplit(parts) == "" <==> parts == []
  {
    if |parts| > 1 {
      assert |Unsplit(parts)| >= |parts[0]|;
    }
  }

  lemma AnchorEmpty(s: string)
    ensures Anchor(s) == "" <==> !StartsWith(s, "/")
    ensures Anchor(s) != "" ==> Anchor(s)[0] == '/'
  {
    if StartsWith(s, "//") {
      assert s[..1] == s[..2][..1];
    }
  }

  /** Joined named pieces are never the bare ".". */
  lemma UnsplitIsNotDot(parts: seq<string>)
    requires forall k :: 0 <= k < |parts| ==> parts[k] != "" && parts[k] != "."
    ensures Unsplit(parts) != "."
  {
    if |parts| > 1 {
      assert |Unsplit(parts)| >= |parts[0]| + 1;
    }
  }

  /** `str(Path(s))` is "." exactly when there is no root and no named piece. */
  lemma CurrentDirShape(s: string)
    ensures IsCurrentDir(s) <==> Anchor(s) == "" && Named(Segments(s)) == []
  {
    var named := Named(Segments(s));
    var body := Unsplit(named);
    UnsplitEmpty(named);
    UnsplitIsNotDot(named);
    AnchorEmpty(s);
    if Anchor(s) != "" {
      assert Normalize(s)[0] == '/';
    }
  }

  /**
   * A path names the current directory exactly when it is relative and every piece
   * between its slashes is empty or ".": "", ".", "./", ".//" and "./." all do.
   */
  lemma CurrentDirPieces(s: string)
    ensures IsCurrentDir(s) <==>
      && !StartsWith(s, "/")
      && forall k :: 0 <= k < |Segments(s)| ==> Segments(s)[k] == "" || Segments(s)[k] == "."
  {
    CurrentDirShape(s);
    NamedEmpty(Segments(s));
    AnchorEmpty(s);
  }

  lemma {:induction false} CurrentPiecesChars(s: string)
    requires forall k :: 0 <= k < |Segments(s)| ==> Segments(s)[k] == "" || Segments(s)[k] == "."
    ensures forall i :: 0 <= i < |s| ==> s[i] == '/' || s[i] == '.'
    decreases |s|
  {
    var (head, found, tail) := Partition(s, '/');
    if found {
      var rest := Segments(tail);
      assert Segments(s) == [head] + rest;
      forall k | 0 <= k < |rest| ensures rest[k] == "" || rest[k] == "." {
        assert rest[k] == Segments(s)[k + 1];
      }
      CurrentPiecesChars(tail);
      assert Segments(s)[0] == head;
      forall i | 0 <= i < |s| ensures s[i] == '/' || s[i] == '.' {
        if i < |head| {
          assert s[i] == head[i];
        } else if i > |head| {
          assert s[i] == tail[i - |head| - 1];
        }
      }
    } else {
      assert Segments(s)[0] == s;
    }
  }

  /** A path naming the current directory is spelt with slashes and dots alone. */
  lemma CurrentDirChars(s: string)
    requires IsCurrentDir(s)
    ensures forall i :: 0 <= i < |s| ==> s[i] == '/' || s[i] == '.'
  {
    CurrentDirPieces(s);
    CurrentPiecesChars(s);
  }

  /** A rooted path never names the current directory. */
  lemma RootedIsNotCurrent(s: string)
    requires StartsWith(s, "/")
    ensures !IsCurrentDir(s)
  {
    CurrentDirPieces(s);
  }

  /** A path with a piece other than "" and "." never names the current directory. */
  lemma NamedPieceIsNotCurrent(s: string, k: nat)
    requires k < |Segments(s)| && Segments(s)[k] != "" && Segments(s)[k] != "."
    ensures !IsCurrentDir(s)
  {
    CurrentDirPieces(s);
  }

  /** A normal form other than "." never names the current directory again. */
  lemma NormalFormStaysPut(s: string)
    ensures IsCurrentDir(Normalize(s)) ==> Normalize(s) == "."
  {
    var y := Normalize(s);
    var named := Named(Segments(s));
    var body := Unsplit(named);
    AnchorEmpty(s);
    if Anchor(s) != "" {
      assert y == Anchor(s) + body;
      assert y[..1] == "/";
      RootedIsNotCurrent(y);
    } else if body != "" {
      assert y == body;
      UnsplitEmpty(named);
      forall k | 0 <= k < |named| ensures '/' !in named[k] {
        var j :| 0 <= j < |Segments(s)| && Segments(s)[j] == named[k];
      }
      SegmentsUnsplit(named);
      NamedPieceIsNotCurrent(y, 0);
    }
  }

  /** A path with a character other than a slash or a dot never names the current directory. */
  lemma NamedPathIsNotCurrent(s: string, i: nat)
    requires i < |s| && s[i] != '/' && s[i] != '.'
    ensures !IsCurrentDir(s) && !IsCurrentDir(Normalize(s))
  {
    if IsCurrentDir(s) {
      CurrentDirChars(s);
    }
    NormalFormStaysPut(s);
  }

  lemma DotSlashSegments()
    ensures Segments("./") == [".", ""]
    ensures Segments("./.") == [".", "."]
  {
    PartitionAt(".", '/', "");
    assert "./" == "." + ['/'] + "";
    PartitionAt(".", '/', ".");
    assert "./." == "." + ['/'] + ".";
  }

  lemma DotSlashSlashSegments()
    ensures Segments(".//") == [".", "", ""]
  {
    PartitionAt("", '/', "");
    assert "/" == "" + ['/'] + "";
    PartitionAt(".", '/', "/");
    assert ".//" == "." + ['/'] + "/";
  }

  /** "", "." and "./" name the current directory. */
  lemma CurrentDirSpellings()
    ensures IsCurrentDir("") && IsCurrentDir(".") && IsCurrentDir("./")
  {
    assert Segments("") == [""] && Segments(".") == ["."];
    DotSlashSegments();
    CurrentDirPieces("");
    CurrentDirPieces(".");
    CurrentDirPieces("./");
  }

  /** So do ".//" and "./.": extra slashes and "." pieces change nothing. */
  lemma RepeatedCurrentDirSpellings()
    ensures IsCurrentDir(".//") && IsCurrentDir("./.")
  {
    DotSlashSegments();
    DotSlashSlashSegments();
    CurrentDirPieces(".//");
    CurrentDirPieces("./.");
  }

  /** The root and the parent directory are not the current directory. */
  lemma OtherSpellings()
    ensures !IsCurrentDir("/") && !IsCurrentDir("..")
  {
    assert Segments("..") == [".."];
    RootedIsNotCurrent("/");
    NamedPieceIsNotCurrent("..", 0);
  }

  /** A piece that names something: not empty, not ".", and free of slashes. */
  predicate NamePiece(a: string) {
    a != "" && a != "." && '/' !in a
  }

  /** A relative path with a named piece prints as its named pieces joined by slashes. */
  lemma RelativeNormalForm(s: string, named: seq<string>)
    requires !StartsWith(s, "/") && Named(Segments(s)) == named && Unsplit(named) != ""
    ensures Normalize(s) == Unsplit(named)
  {
    AnchorEmpty(s);
  }

  /** A trailing slash is dropped: "out/" prints as "out". */
  lemma TrailingSlashDropped(a: string)
    requires NamePiece(a)
    ensures Normalize(a + "/") == a
  {
    var s := a + "/";
    PartitionAt(a, '/', "");
    assert s == a + ['/'] + "";
    assert Segments("") == [""];
    var parts := Segments(s);
    assert parts == [a, ""];
    assert parts[1..] == [""] && Named([""]) == [];
    assert Named(parts) == [a] + Named([""]);
    assert s[..1] == a[..1] && a[..1] != "/";
    RelativeNormalForm(s, [a]);
  }

  /** A doubled slash counts as one: "out//x" prints as "out/x". */
  lemma DoubledSlashDropped(a: string, b: string)
    requires NamePiece(a) && NamePiece(b)
    ensures Normalize(a + "//" + b) == a + "/" + b
  {
    var s := a + "//" + b;
    PartitionAt(a, '/', "/" + b);
    assert s == a + ['/'] + ("/" + b);
    PartitionAt("", '/', b);
    assert "/" + b == "" + ['/'] + b;
    assert Segments(b) == [b];
    assert Segments("/" + b) == [""] + [b];
    var parts := Segments(s);
    assert parts == [a] + Segments("/" + b) == [a, "", b];
    assert parts[1..] == ["", b] && parts[1..][1..] == [b] && parts[1..][1..][1..] == [];
    assert Named([b]) == [b];
    assert Named(["", b]) == [b];
    assert Named(parts) == [a] + Named(["", b]);
    assert Unsplit([a, b]) == a + "/" + b;
    assert s[..1] == a[..1] && a[..1] != "/";
    RelativeNormalForm(s, [a, b]);
  }
}
