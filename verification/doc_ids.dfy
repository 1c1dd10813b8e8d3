/** Document-id extraction from corpus paths (`doc2vec/data/doc.py`).

    `_doc_id` runs `re.search(r'(\d+)', path)` and returns the captured
    group: the leftmost run of digits, taken greedily. `\d` is restricted
    here to the ASCII digits '0'..'9'. */
module DocIds {
  import opened Wrappers

  predicate IsDigit(c: char) {
    '0' <= c <= '9'
  }

  predicate HasDigit(s: string) {
    exists i | 0 <= i < |s| :: IsDigit(s[i])
  }

  predicate AllDigits(s: string) {
    forall i | 0 <= i < |s| :: IsDigit(s[i])
  }

  /** `s[start..end]` is the match of `\d+` that `re.search` reports:
      non-empty, all digits, no digit before it, and not followed by one. */
  predicate IsFirstRun(s: string, start: int, end: int) {
    && 0 <= start < end <= |s|
    && (forall i | start <= i < end :: IsDigit(s[i]))
    && (forall i | 0 <= i < start :: !IsDigit(s[i]))
    && (end == |s| || !IsDigit(s[end]))
  }

  /** The first index at or after `i` that holds a digit, or `|s|`. */
  function SkipNonDigits(s: string, i: nat): (j: nat)
    requires i <= |s|
    ensures i <= j <= |s|
    ensures forall k | i <= k < j :: !IsDigit(s[k])
    ensures j < |s| ==> IsDigit(s[j])
    decreases |s| - i
  {
    if i == |s| || IsDigit(s[i]) then i else SkipNonDigits(s, i + 1)
  }

  /** The first index at or after `i` that holds a non-digit, or `|s|`. */
  function SkipDigits(s: string, i: nat): (j: nat)
    requires i <= |s|
    ensures i <= j <= |s|
    ensures forall k | i <= k < j :: IsDigit(s[k])
    ensures j < |s| ==> !IsDigit(s[j])
    decreases |s| - i
  {
    if i == |s| || !IsDigit(s[i]) then i else SkipDigits(s, i + 1)
  }

  /** Two spans that both satisfy `IsFirstRun` are the same span. */
  lemma FirstRunUnique(s: string, a: int, b: int, a': int, b': int)
    requires IsFirstRun(s, a, b) && IsFirstRun(s, a', b')
    ensures a == a' && b == b'
  {
    assert IsDigit(s[a]) && IsDigit(s[a']);
    assert a == a';
    assert b < |s| ==> !IsDigit(s[b]);
    assert b' < |s| ==> !IsDigit(s[b']);
  }

  /** The span `re.search(r'(\d+)', s)` matches, if any. The span returned
      is the only one satisfying `IsFirstRun`. */
  function MatchSpan(s: string): (r: Option<(nat, nat)>)
    ensures r.None? <==> !HasDigit(s)
    ensures forall a, b :: IsFirstRun(s, a, b) <==> r == Some((a, b))
  {
    var start := SkipNonDigits(s, 0);
    if start == |s| then
      assert forall a, b :: !IsFirstRun(s, a, b) by {
        forall a, b ensures !IsFirstRun(s, a, b) {
          assert 0 <= a < |s| ==> !IsDigit(s[a]);
        }
      }
      None
    else
      var end := SkipDigits(s, start + 1);
      assert IsFirstRun(s, start, end);
      assert forall a, b :: IsFirstRun(s, a, b) ==> a == start && b == end by {
        forall a, b | IsFirstRun(s, a, b) ensures a == start && b == end {
          FirstRunUnique(s, a, b, start, end);
        }
      }
      Some((start, end))
  }

  datatype DocIdError = NoDigit(path: string)

  /** `_doc_id(path)`: the leftmost maximal digit run of `path`, kept as a
      string (leading zeros included). A path without a digit fails, as
      `re.search` returns `None` and the unpacking raises. */
  function DocId(path: string): (r: Result<string, DocIdError>)
    ensures r.Failure? <==> !HasDigit(path)
    ensures r.Failure? ==> r.error == NoDigit(path)
    ensures r.Success? ==> |r.value| > 0 && AllDigits(r.value)
    ensures r.Success? ==>
              exists a, b :: IsFirstRun(path, a, b) && r.value == path[a..b]
  {
    match MatchSpan(path)
    case None => Failure(NoDigit(path))
    case Some((a, b)) =>
      assert IsFirstRun(path, a, b);
      Success(path[a..b])
  }

  /** The id is the text of the span `IsFirstRun` picks out, and nothing else. */
  lemma DocIdIsFirstRun(path: string, a: int, b: int)
    requires IsFirstRun(path, a, b)
    ensures DocId(path) == Success(path[a..b])
  {
  }

  /** `os.path.join(directory, name)` for two string parts: an absolute
      `name` discards the directory; otherwise a '/' separator is inserted
      unless the directory is empty or already ends with one. */
  function Join(directory: string, name: string): (r: string)
  {
    if |name| > 0 && name[0] == '/' then name
    else if |directory| == 0 || directory[|directory| - 1] == '/' then directory + name
    else directory + "/" + name
  }

  /** `_full_paths(directory)` over the directory's listing `names`. */
  function FullPaths(directory: string, names: seq<string>): (r: seq<string>)
    ensures |r| == |names|
    ensures forall i | 0 <= i < |names| :: r[i] == Join(directory, names[i])
  {
    seq(|names|, i requires 0 <= i < |names| => Join(directory, names[i]))
  }

  /** An absolute name discards the directory: the joined path is the
      name itself. */
  lemma JoinAbsolute(directory: string, name: string)
    requires |name| > 0 && name[0] == '/'
    ensures Join(directory, name) == name
  {
  }

  /** The joined path of a relative name is the directory, then a
      separator when the directory needs one, then the name, and nothing
      more. */
  lemma JoinParts(directory: string, name: string)
    requires !(|name| > 0 && name[0] == '/')
    ensures |Join(directory, name)|
            == |directory| + |name| + (if |directory| > 0 && directory[|directory| - 1] != '/' then 1 else 0)
    ensures |directory| <= |Join(directory, name)|
    ensures Join(directory, name)[..|directory|] == directory
    ensures |directory| > 0 && directory[|directory| - 1] != '/' ==>
              |directory| < |Join(directory, name)| && Join(directory, name)[|directory|] == '/'
    ensures Join(directory, name)[|Join(directory, name)| - |name|..] == name
  {
  }

  /** A digit in the directory wins over any digit in the file name: for a
      relative name the id of the joined path is the directory's own id. */
  lemma {:induction false} DirectoryDigitWins(directory: string, name: string)
    requires HasDigit(directory)
    requires !(|name| > 0 && name[0] == '/')
    ensures DocId(Join(directory, name)) == DocId(directory)
  {
    var p := Join(directory, name);
    JoinParts(directory, name);
    var span := MatchSpan(directory);
    var (a, b) := span.value;
    assert IsFirstRun(directory, a, b);
    assert p[..|directory|] == directory;
    assert forall i | 0 <= i < |directory| :: p[i] == directory[i] by {
      forall i | 0 <= i < |directory| ensures p[i] == directory[i] {
        assert p[..|directory|][i] == p[i];
      }
    }
    if b < |directory| {
      assert !IsDigit(p[b]);
    } else {
      assert IsDigit(directory[|directory| - 1]);
      assert p[|directory|] == '/';
    }
    assert IsFirstRun(p, a, b);
    assert p[a..b] == directory[a..b];
    DocIdIsFirstRun(p, a, b);
    DocIdIsFirstRun(directory, a, b);
  }

  /** A directory without digits leaves the id to the file name: for a
      relative name holding a digit, the joined path's id is the name's. */
  lemma DigitFreeDirectoryKeepsId(directory: string, name: string)
    requires !HasDigit(directory) && HasDigit(name)
    requires !(|name| > 0 && name[0] == '/')
    ensures DocId(Join(directory, name)) == DocId(name)
  {
    var off := DigitFreePrefix(directory, name);
    PrefixedId(Join(directory, name), off, name);
  }

  /** A path made of `off` non-digit characters followed by `name` has the
      id of `name`. */
  lemma PrefixedId(p: string, off: nat, name: string)
    requires HasDigit(name)
    requires off + |name| == |p|
    requires forall k | 0 <= k < |name| :: p[off + k] == name[k]
    requires forall i | 0 <= i < off :: !IsDigit(p[i])
    ensures DocId(p) == DocId(name)
  {
    var span := MatchSpan(name);
    var a, b := span.value.0, span.value.1;
    assert IsFirstRun(name, a, b);
    ShiftedRun(p, off, name, a, b);
    DocIdIsFirstRun(p, off + a, off + b);
    DocIdIsFirstRun(name, a, b);
  }

  /** Joining a relative name to a digit-free directory puts `off`
      non-digit characters in front of the name. */
  lemma DigitFreePrefix(directory: string, name: string) returns (off: nat)
    requires !HasDigit(directory)
    requires !(|name| > 0 && name[0] == '/')
    ensures off + |name| == |Join(directory, name)|
    ensures forall k | 0 <= k < |name| :: Join(directory, name)[off + k] == name[k]
    ensures forall i | 0 <= i < off :: !IsDigit(Join(directory, name)[i])
  {
    var p := Join(directory, name);
    JoinParts(directory, name);
    off := |p| - |name|;
    forall k | 0 <= k < |name| ensures p[off + k] == name[k] {
      assert p[off..][k] == p[off + k];
    }
    forall i | 0 <= i < off ensures !IsDigit(p[i]) {
      if i < |directory| {
        assert p[..|directory|][i] == p[i];
        assert !IsDigit(directory[i]);
      }
    }
  }

  /** A first digit run of `name` stays the first run, shifted by `off`,
      when `name` is preceded by `off` characters that are not digits. */
  lemma ShiftedRun(p: string, off: nat, name: string, a: int, b: int)
    requires off + |name| == |p|
    requires forall k | 0 <= k < |name| :: p[off + k] == name[k]
    requires forall i | 0 <= i < off :: !IsDigit(p[i])
    requires IsFirstRun(name, a, b)
    ensures IsFirstRun(p, off + a, off + b)
    ensures p[off + a..off + b] == name[a..b]
  {
    assert forall i | off <= i < off + a :: !IsDigit(p[i]) by {
      forall i | off <= i < off + a ensures !IsDigit(p[i]) {
        assert p[i] == name[i - off];
      }
    }
    assert forall i | off + a <= i < off + b :: IsDigit(p[i]) by {
      forall i | off + a <= i < off + b ensures IsDigit(p[i]) {
        assert p[i] == name[i - off];
      }
    }
    assert b < |name| ==> p[off + b] == name[b];
  }

  /** Leading zeros are kept: `doc_007.txt` and `doc_7.txt` give the distinct
      ids "007" and "7". */
  lemma LeadingZerosKept()
    ensures DocId("doc_007.txt") == Success("007")
    ensures DocId("doc_7.txt") == Success("7")
    ensures DocId("doc_007.txt") != DocId("doc_7.txt")
  {
    assert IsFirstRun("doc_007.txt", 4, 7);
    DocIdIsFirstRun("doc_007.txt", 4, 7);
    assert "doc_007.txt"[4..7] == "007";
    assert IsFirstRun("doc_7.txt", 4, 5);
    DocIdIsFirstRun("doc_7.txt", 4, 5);
    assert "doc_7.txt"[4..5] == "7";
  }

  /** `data2/doc_7.txt` gives "2": the directory's digit comes first. */
  lemma DirectoryDigitExample()
    ensures DocId(Join("data2", "doc_7.txt")) == Success("2")
  {
    assert HasDigit("data2") by { assert IsDigit("data2"[4]); }
    DirectoryDigitWins("data2", "doc_7.txt");
    assert IsFirstRun("data2", 4, 5);
    DocIdIsFirstRun("data2", 4, 5);
    assert "data2"[4..5] == "2";
  }

  /** A path without any digit has no id. */
  lemma NoDigitNoId()
    ensures DocId("corpus/readme.txt") == Failure(NoDigit("corpus/readme.txt"))
  {
  }
}
