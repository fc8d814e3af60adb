/** The string helpers of internal/pkg/util/common.go. */
module Common {
  import opened Strs

  /** ContainsChinese: whether some character of `s` belongs to the Han
      script; `isHan` stands for Go's unicode.Is(unicode.Scripts["Han"], ·). */
  function ContainsChinese(s: string, isHan: char -> bool): (r: bool)
    ensures r <==> exists i :: 0 <= i < |s| && isHan(s[i])
    decreases |s|
  {
    if |s| == 0 then false
    else if isHan(s[0]) then true
    else ContainsChinese(s[1..], isHan)
  }

  /** No Han character is ASCII, so an ASCII-only text (the empty one
      included) contains no Chinese. */
  lemma AsciiIsNotChinese(s: string, isHan: char -> bool)
    requires forall c: char :: c < 128 as char ==> !isHan(c)
    requires forall i :: 0 <= i < |s| ==> s[i] < 128 as char
    ensures !ContainsChinese(s, isHan)
  {
  }

  /** The search is split-invariant: a concatenation contains Chinese iff one of its parts does. */
  lemma {:induction false} ContainsChineseConcat(a: string, b: string, isHan: char -> bool)
    ensures ContainsChinese(a + b, isHan) <==> ContainsChinese(a, isHan) || ContainsChinese(b, isHan)
  {
    if ContainsChinese(a + b, isHan) {
      var i :| 0 <= i < |a + b| && isHan((a + b)[i]);
      if i >= |a| {
        assert b[i - |a|] == (a + b)[i];
      }
    }
    if ContainsChinese(a, isHan) {
      var i :| 0 <= i < |a| && isHan(a[i]);
      assert (a + b)[i] == a[i];
    }
    if ContainsChinese(b, isHan) {
      var i :| 0 <= i < |b| && isHan(b[i]);
      assert (a + b)[|a| + i] == b[i];
    }
  }

  /** URL2FileName: the last "/"-separated part of `url`, cut before its first "?". */
  function URL2FileName(url: string): (name: string)
    ensures '/' !in name && '?' !in name
    ensures '/' !in url && '?' !in url ==> name == url
  {
    var parts := Split(url, '/');
    var fileName := parts[|parts| - 1];
    assert '/' !in url ==> fileName == url by {
      if '/' !in url { SplitPiece(url, '/'); }
    }
    ContainsChar(fileName, '?');
    SplitLastPiece(url, '/');
    SplitFirstPiece(fileName, '?');
    if Contains(fileName, "?") then Split(fileName, '?')[0]
    else fileName
  }

  /** The file name starts right after the last "/" of `url` (or at its start)
      and ends at the first "?" after that (or at the end of `url`). */
  lemma URL2FileNamePosition(url: string)
    ensures var name := URL2FileName(url);
      exists k :: 0 <= k && k + |name| <= |url| && url[k..k + |name|] == name
        && (k == 0 || url[k - 1] == '/') && '/' !in url[k..]
        && (k + |name| == |url| || url[k + |name|] == '?')
  {
    var parts := Split(url, '/');
    var fileName := parts[|parts| - 1];
    SplitLastPiece(url, '/');
    var k := |url| - |fileName|;
    assert url[k..] == fileName;
    ContainsChar(fileName, '?');
    var name := URL2FileName(url);
    if '?' in fileName {
      SplitFirstPiece(fileName, '?');
      assert url[k..k + |name|] == fileName[..|name|];
      assert url[k + |name|] == fileName[|name|];
    } else {
      assert name == fileName;
    }
  }
}
