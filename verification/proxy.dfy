/** The proxy pool: how a proxy file becomes the configured proxy list
    (index.js:192-201), and how a new session picks and normalises its
    proxy URL (index.js:279-285). */
module Proxy {
  import opened Wrappers
  import opened Text
  import Arith

  const SchemeSeparator: string := "://"
  /** Scheme given to a bare `host:port` entry at selection time. */
  const DefaultScheme: string := "socks5://"
  const Socks4: string := "socks4://"
  const Socks4a: string := "socks4a://"

  // ---------------------------------------------------------------- loading

  /** Last stage of the load pipeline: a line without `://` is prefixed with
      the requested proxy type. The line survives as the tail of the entry,
      and the entry is the line itself exactly when it already had a scheme. */
  function WithScheme(kind: string, line: string): (r: string)
    ensures Contains(r, SchemeSeparator)
    ensures |line| <= |r| && r[|r| - |line|..] == line
    ensures r == line <==> Contains(line, SchemeSeparator)
    ensures !Contains(line, SchemeSeparator) ==> r == kind + SchemeSeparator + line
  {
    if Contains(line, SchemeSeparator) then line
    else
      ContainsInfix(kind, SchemeSeparator, line);
      kind + SchemeSeparator + line
  }

  function TrimLines(lines: seq<string>): (r: seq<string>)
    ensures |r| == |lines|
    ensures forall k :: 0 <= k < |r| ==> IsTrimmed(r[k])
    decreases |lines|
  {
    if |lines| == 0 then [] else [Trim(lines[0])] + TrimLines(lines[1..])
  }

  /** The `filter(line => line.length > 0)` stage. */
  function DropEmpty(lines: seq<string>): (r: seq<string>)
    ensures |r| <= |lines|
    ensures forall k :: 0 <= k < |r| ==> |r[k]| > 0
    ensures (forall k :: 0 <= k < |lines| ==> |lines[k]| > 0) ==> r == lines
    decreases |lines|
  {
    if |lines| == 0 then []
    else if |lines[0]| == 0 then DropEmpty(lines[1..])
    else [lines[0]] + DropEmpty(lines[1..])
  }

  function AddSchemes(kind: string, lines: seq<string>): (r: seq<string>)
    ensures |r| == |lines|
    ensures forall k :: 0 <= k < |r| ==> Contains(r[k], SchemeSeparator)
    decreases |lines|
  {
    if |lines| == 0 then [] else [WithScheme(kind, lines[0])] + AddSchemes(kind, lines[1..])
  }

  /** The `load-proxy-file` transform of a file's text: split on newlines,
      trim, drop blank lines, give scheme-less lines the file's type. Every
      entry is non-empty and carries a scheme. */
  function LoadProxyList(kind: string, content: string): (r: seq<string>)
    ensures forall k :: 0 <= k < |r| ==> |r[k]| > 0 && Contains(r[k], SchemeSeparator)
  {
    var lines := DropEmpty(TrimLines(Split(content, '\n')));
    var r := AddSchemes(kind, lines);
    assert forall k :: 0 <= k < |r| ==> |r[k]| > 0 by {
      forall k | 0 <= k < |r| ensures |r[k]| > 0 {
        AddSchemesAt(kind, lines, k);
      }
    }
    r
  }

  lemma {:induction false} AddSchemesAt(kind: string, lines: seq<string>, k: nat)
    requires k < |lines|
    ensures AddSchemes(kind, lines)[k] == WithScheme(kind, lines[k])
    decreases k
  {
    if k > 0 {
      AddSchemesAt(kind, lines[1..], k - 1);
    }
  }

  lemma {:induction false} TrimLinesAt(lines: seq<string>, k: nat)
    requires k < |lines|
    ensures TrimLines(lines)[k] == Trim(lines[k])
    decreases k
  {
    if k > 0 {
      TrimLinesAt(lines[1..], k - 1);
    }
  }

  /** Lines that are already trimmed stay as they are. */
  lemma {:induction false} TrimLinesClean(lines: seq<string>)
    requires forall k :: 0 <= k < |lines| ==> IsTrimmed(lines[k])
    ensures TrimLines(lines) == lines
    decreases |lines|
  {
    if |lines| > 0 {
      TrimLinesClean(lines[1..]);
    }
  }

  /** Lines that already have a scheme are kept as they are. */
  lemma {:induction false} AddSchemesClean(kind: string, lines: seq<string>)
    requires forall k :: 0 <= k < |lines| ==> Contains(lines[k], SchemeSeparator)
    ensures AddSchemes(kind, lines) == lines
    decreases |lines|
  {
    if |lines| > 0 {
      AddSchemesClean(kind, lines[1..]);
    }
  }

  /** No character of `s` is whitespace. */
  predicate NoWhitespace(s: string) {
    forall i :: 0 <= i < |s| ==> !IsJsWhitespace(s[i])
  }

  /** A line kept by the trim-and-filter stages is non-empty, trimmed, and
      free of newlines. */
  lemma KeptLineClean(content: string, k: nat)
    requires k < |DropEmpty(TrimLines(Split(content, '\n')))|
    ensures '\n' !in DropEmpty(TrimLines(Split(content, '\n')))[k]
    ensures IsTrimmed(DropEmpty(TrimLines(Split(content, '\n')))[k])
  {
    var split := Split(content, '\n');
    var trimmed := TrimLines(split);
    var line := DropEmpty(trimmed)[k];
    var j := DropEmptyFrom(trimmed, k);
    TrimLinesAt(split, j);
    TrimKeepsAbsent(split[j], '\n');
  }

  /** Giving a clean line a clean scheme prefix keeps it clean. */
  lemma WithSchemeClean(kind: string, line: string)
    requires NoWhitespace(kind)
    requires |line| > 0 && '\n' !in line && IsTrimmed(line)
    ensures '\n' !in WithScheme(kind, line)
    ensures IsTrimmed(WithScheme(kind, line))
  {
    var r := WithScheme(kind, line);
    if r != line {
      assert r == kind + SchemeSeparator + line;
      assert '\n' !in kind by {
        forall i | 0 <= i < |kind| ensures kind[i] != '\n' {
          assert !IsJsWhitespace(kind[i]);
        }
      }
      assert r[|r| - 1] == line[|line| - 1];
      if |kind| > 0 {
        assert r[0] == kind[0];
      } else {
        assert r[0] == ':';
      }
    }
  }

  /** A loaded entry has no newline and no whitespace at either end, as long
      as the proxy type itself has no whitespace. */
  lemma LoadedEntryClean(kind: string, content: string, k: nat)
    requires NoWhitespace(kind)
    requires k < |LoadProxyList(kind, content)|
    ensures '\n' !in LoadProxyList(kind, content)[k]
    ensures IsTrimmed(LoadProxyList(kind, content)[k])
  {
    var lines := DropEmpty(TrimLines(Split(content, '\n')));
    AddSchemesAt(kind, lines, k);
    KeptLineClean(content, k);
    WithSchemeClean(kind, lines[k]);
  }

  /** Every kept line is one of the input lines. */
  lemma {:induction false} DropEmptyFrom(lines: seq<string>, k: nat) returns (j: nat)
    requires k < |DropEmpty(lines)|
    ensures j < |lines| && lines[j] == DropEmpty(lines)[k]
    decreases |lines|
  {
    if |lines[0]| == 0 {
      var j' := DropEmptyFrom(lines[1..], k);
      j := j' + 1;
    } else if k == 0 {
      j := 0;
    } else {
      var j' := DropEmptyFrom(lines[1..], k - 1);
      j := j' + 1;
    }
  }

  /** Loading is a normal form: writing a loaded list back to a file, one
      entry per line, and loading it again with the same type gives the
      same list. */
  lemma LoadReload(kind: string, content: string)
    requires NoWhitespace(kind)
    ensures LoadProxyList(kind, Join(LoadProxyList(kind, content), '\n'))
         == LoadProxyList(kind, content)
  {
    var r := LoadProxyList(kind, content);
    forall k | 0 <= k < |r| ensures '\n' !in r[k] && IsTrimmed(r[k]) {
      LoadedEntryClean(kind, content, k);
    }
    LoadCleanList(kind, r);
  }

  /** A list of non-empty, trimmed, newline-free entries that all carry a
      scheme, written one per line, loads back as itself. */
  lemma LoadCleanList(kind: string, r: seq<string>)
    requires forall k :: 0 <= k < |r| ==>
               |r[k]| > 0 && '\n' !in r[k] && IsTrimmed(r[k]) && Contains(r[k], SchemeSeparator)
    ensures LoadProxyList(kind, Join(r, '\n')) == r
  {
    if |r| == 0 {
      LoadEmptyText(kind);
    } else {
      SplitJoin(r, '\n');
      TrimLinesClean(r);
      AddSchemesClean(kind, r);
    }
  }

  /** An empty file loads as the empty list. */
  lemma LoadEmptyText(kind: string)
    ensures LoadProxyList(kind, "") == []
  {
    var split := Split("", '\n');
    assert |split| == 1 && split[0] == "";
    var trimmed := TrimLines(split);
    TrimLinesAt(split, 0);
    assert |trimmed| == 1 && |trimmed[0]| == 0;
    AllEmptyDropped(trimmed);
  }

  /** Every piece of a split is made of characters of the split text. */
  lemma {:induction false} SplitChars(s: string, sep: char, k: nat, i: nat)
    requires k < |Split(s, sep)| && i < |Split(s, sep)[k]|
    ensures Split(s, sep)[k][i] in s
    decreases |s|
  {
    if |s| > 0 {
      var rest := Split(s[1..], sep);
      if s[0] == sep {
        if k > 0 {
          SplitChars(s[1..], sep, k - 1, i);
        }
      } else if k == 0 {
        if i > 0 {
          SplitChars(s[1..], sep, 0, i - 1);
        }
      } else {
        SplitChars(s[1..], sep, k, i);
      }
    }
  }

  /** A file holding nothing but whitespace loads as the empty list (the
      configured list is replaced by it, not kept). */
  lemma {:induction false} LoadBlankFile(kind: string, content: string)
    requires forall i :: 0 <= i < |content| ==> IsJsWhitespace(content[i])
    ensures LoadProxyList(kind, content) == []
  {
    var split := Split(content, '\n');
    var trimmed := TrimLines(split);
    forall k | 0 <= k < |trimmed| ensures |trimmed[k]| == 0 {
      TrimLinesAt(split, k);
      forall i | 0 <= i < |split[k]| ensures IsJsWhitespace(split[k][i]) {
        SplitChars(content, '\n', k, i);
      }
    }
    AllEmptyDropped(trimmed);
  }

  lemma {:induction false} AllEmptyDropped(lines: seq<string>)
    requires forall k :: 0 <= k < |lines| ==> |lines[k]| == 0
    ensures DropEmpty(lines) == []
    decreases |lines|
  {
    if |lines| > 0 {
      AllEmptyDropped(lines[1..]);
    }
  }

  // ---------------------------------------------------------------- selection

  /** The URL handed to the SOCKS agent for one configured entry: a bare
      entry gets `socks5://`; an entry starting with `socks4` has its first
      `socks4://` (wherever it is) rewritten to `socks4a://`. The URL always
      carries a scheme. */
  function NormalizeUrl(proxy: string): (r: string)
    ensures Contains(r, SchemeSeparator)
  {
    var url := if Contains(proxy, SchemeSeparator) then proxy else DefaultScheme + proxy;
    assert Contains(url, SchemeSeparator) by {
      if !Contains(proxy, SchemeSeparator) {
        ContainsInfix("socks5", SchemeSeparator, proxy);
        assert DefaultScheme + proxy == "socks5" + SchemeSeparator + proxy;
      }
    }
    if StartsWith(url, "socks4") then
      ReplaceKeepsScheme(url);
      ReplaceFirst(url, Socks4, Socks4a)
    else url
  }

  /** Rewriting `socks4://` to `socks4a://` never loses the `://`. */
  lemma ReplaceKeepsScheme(url: string)
    requires Contains(url, SchemeSeparator)
    ensures Contains(ReplaceFirst(url, Socks4, Socks4a), SchemeSeparator)
  {
    if Contains(url, Socks4) {
      var j :| 0 <= j <= |url| - |Socks4| && OccursAt(url, Socks4, j);
      var k := ReplaceFirstSplits(url, Socks4, Socks4a, j);
      ContainsInfix(url[..k] + "socks4a", SchemeSeparator, url[k + |Socks4|..]);
      assert url[..k] + Socks4a + url[k + |Socks4|..]
          == (url[..k] + "socks4a") + SchemeSeparator + url[k + |Socks4|..];
    } else {
      ReplaceFirstAbsent(url, Socks4, Socks4a);
    }
  }

  /** `proxy` has no occurrence of `socks4://` other than, possibly, at its
      very start. */
  predicate NoLaterSocks4(proxy: string) {
    forall k :: 0 < k <= |proxy| - |Socks4| ==> !OccursAt(proxy, Socks4, k)
  }

  /** A bare `host:port` entry becomes a SOCKS5 URL. */
  lemma NormalizeBare(proxy: string)
    requires !Contains(proxy, SchemeSeparator)
    ensures NormalizeUrl(proxy) == DefaultScheme + proxy
  {
    assert (DefaultScheme + proxy)[5] == '5';
  }

  /** A leading `socks4://` is upgraded to `socks4a://`. */
  lemma NormalizeSocks4(proxy: string)
    requires StartsWith(proxy, Socks4)
    ensures NormalizeUrl(proxy) == Socks4a + proxy[|Socks4|..]
  {
    assert OccursAt(proxy, SchemeSeparator, 6) by {
      assert proxy[6..9] == Socks4[6..9];
    }
    assert proxy[..6] == Socks4[..6];
  }

  /** An entry that is already `socks4a://` comes out unchanged, provided no
      `socks4://` hides later in it (the rewrite is not anchored at the
      start of the URL). */
  lemma NormalizeSocks4a(proxy: string)
    requires StartsWith(proxy, Socks4a) && NoLaterSocks4(proxy)
    ensures NormalizeUrl(proxy) == proxy
  {
    assert OccursAt(proxy, SchemeSeparator, 7) by {
      assert proxy[7..10] == Socks4a[7..10];
    }
    assert !OccursAt(proxy, Socks4, 0) by {
      assert proxy[..10] == Socks4a;
      assert proxy[0..9][6] != Socks4[6];
    }
    assert proxy[..6] == Socks4a[..6];
    ReplaceFirstAbsent(proxy, Socks4, Socks4a);
  }

  /** After a leading `socks4://` has been upgraded, no `socks4://` is left
      when none followed it. */
  lemma UpgradedHasNoSocks4(proxy: string)
    requires StartsWith(proxy, Socks4) && NoLaterSocks4(proxy)
    ensures !Contains(Socks4a + proxy[|Socks4|..], Socks4)
  {
    var rest := proxy[|Socks4|..];
    var u := Socks4a + rest;
    forall k | 0 <= k <= |u| - |Socks4| ensures !OccursAt(u, Socks4, k) {
      if k >= |Socks4a| {
        assert u[k..k + |Socks4|] == proxy[k - 1..k - 1 + |Socks4|];
        assert !OccursAt(proxy, Socks4, k - 1);
      } else {
        assert u[..|Socks4a|] == Socks4a;
        assert u[0] == 's' && u[1] == 'o' && u[2] == 'c' && u[3] == 'k' && u[4] == 's' by {
          assert u[..|Socks4a|][0] == u[0] && u[..|Socks4a|][1] == u[1];
          assert u[..|Socks4a|][2] == u[2] && u[..|Socks4a|][3] == u[3];
          assert u[..|Socks4a|][4] == u[4];
        }
        assert u[5] == '4' && u[6] == 'a' && u[7] == ':' && u[8] == '/' && u[9] == '/' by {
          assert u[..|Socks4a|][5] == u[5] && u[..|Socks4a|][6] == u[6];
          assert u[..|Socks4a|][7] == u[7] && u[..|Socks4a|][8] == u[8];
          assert u[..|Socks4a|][9] == u[9];
        }
        var w := u[k..k + |Socks4|];
        if k == 0 {
          assert w[6] == u[6];
        } else if k == 4 {
          assert w[1] == u[5];
        } else {
          assert w[0] == u[k];
        }
      }
    }
  }

  /** Normalising a normalised URL changes nothing, for entries with at most
      a leading `socks4://`. */
  lemma NormalizeIdempotent(proxy: string)
    requires NoLaterSocks4(proxy)
    ensures NormalizeUrl(NormalizeUrl(proxy)) == NormalizeUrl(proxy)
  {
    if !Contains(proxy, SchemeSeparator) {
      NormalizeBare(proxy);
      var u := DefaultScheme + proxy;
      assert OccursAt(u, SchemeSeparator, 6) by {
        assert u[6..9] == SchemeSeparator;
      }
      assert u[5] == '5';
    } else if StartsWith(proxy, Socks4) {
      NormalizeSocks4(proxy);
      UpgradedHasNoSocks4(proxy);
      var u := Socks4a + proxy[|Socks4|..];
      assert OccursAt(u, SchemeSeparator, 7) by {
        assert u[7..10] == SchemeSeparator;
      }
      assert u[..6] == "socks4";
      ReplaceFirstAbsent(u, Socks4, Socks4a);
    } else {
      assert !OccursAt(proxy, Socks4, 0);
      assert !Contains(proxy, Socks4);
      ReplaceFirstAbsent(proxy, Socks4, Socks4a);
    }
  }

  /** Round-robin choice of the proxy for connection ordinal `i`: none when
      the list is empty, otherwise the normalised entry `i mod |proxies|`. */
  function SelectProxy(proxies: seq<string>, i: nat): (r: Option<string>)
    ensures r.None? <==> |proxies| == 0
    ensures r.Some? ==> Contains(r.value, SchemeSeparator)
  {
    if |proxies| == 0 then None else Some(NormalizeUrl(proxies[i % |proxies|]))
  }

  /** The choice cycles through the list: ordinal `i + |proxies|` gets the
      same proxy as ordinal `i`, and the first `|proxies|` ordinals use the
      entries in order. */
  lemma SelectRoundRobin(proxies: seq<string>, i: nat)
    requires |proxies| > 0
    ensures SelectProxy(proxies, i + |proxies|) == SelectProxy(proxies, i)
    ensures i < |proxies| ==> SelectProxy(proxies, i) == Some(NormalizeUrl(proxies[i]))
  {
    var n := |proxies|;
    Arith.ModShift(i, n);
    assert (i + n) % n == i % n;
    if i < n {
      assert i % n == i;
    }
  }

  /** A string without `/` has no scheme separator. */
  lemma NoSlashNoScheme(s: string)
    requires '/' !in s
    ensures !Contains(s, SchemeSeparator)
  {
    forall k | 0 <= k <= |s| - |SchemeSeparator| ensures !OccursAt(s, SchemeSeparator, k) {
      assert s[k..k + 3][1] == s[k + 1];
    }
  }

  /** The worked example: a bare entry and a `socks4://` entry. */
  const ExampleBare: string := "1.2.3.4:1080"
  const ExampleSocks4: string := "socks4://5.6.7.8:1080"

  lemma ExampleSchemes()
    ensures !Contains(ExampleBare, SchemeSeparator)
    ensures Contains(ExampleSocks4, SchemeSeparator)
  {
    assert '/' !in ExampleBare;
    NoSlashNoScheme(ExampleBare);
    assert OccursAt(ExampleSocks4, SchemeSeparator, 6) by {
      assert ExampleSocks4[6..9] == SchemeSeparator;
    }
  }

  /** A two-line file with a bare first entry and a schemed second entry
      loads as the first line prefixed with the file's type, then the second
      line unchanged. */
  lemma LoadTwoLines(kind: string, a: string, b: string)
    requires |a| > 0 && IsTrimmed(a) && '\n' !in a && !Contains(a, SchemeSeparator)
    requires |b| > 0 && IsTrimmed(b) && '\n' !in b && Contains(b, SchemeSeparator)
    ensures LoadProxyList(kind, a + "\n" + b) == [kind + SchemeSeparator + a, b]
  {
    var content := a + "\n" + b;
    SplitTwoLines(a, b);
    TrimLinesClean([a, b]);
    assert DropEmpty(TrimLines(Split(content, '\n'))) == [a, b];
    AddSchemesTwo(kind, a, b);
  }

  lemma SplitTwoLines(a: string, b: string)
    requires '\n' !in a && '\n' !in b
    ensures Split(a + "\n" + b, '\n') == [a, b]
  {
    SplitAfterPiece(a, b, '\n');
    SplitNoSeparator(b, '\n');
    assert a + "\n" + b == a + ['\n'] + b;
  }

  lemma AddSchemesTwo(kind: string, a: string, b: string)
    ensures AddSchemes(kind, [a, b]) == [WithScheme(kind, a), WithScheme(kind, b)]
  {
    assert [a, b][1..] == [b];
    assert AddSchemes(kind, [b]) == [WithScheme(kind, b)];
  }

  /** Loading the example as a `socks5` file. */
  lemma LoadExample()
    ensures LoadProxyList("socks5", ExampleBare + "\n" + ExampleSocks4)
         == ["socks5" + SchemeSeparator + ExampleBare, ExampleSocks4]
  {
    ExampleSchemes();
    LoadTwoLines("socks5", ExampleBare, ExampleSocks4);
  }

  /** Selecting from the loaded example: the second connection gets the
      `socks4://` entry upgraded to `socks4a://`. */
  lemma SelectExample()
    ensures SelectProxy(["socks5" + SchemeSeparator + ExampleBare, ExampleSocks4], 1)
         == Some(Socks4a + "5.6.7.8:1080")
  {
    var p := ["socks5" + SchemeSeparator + ExampleBare, ExampleSocks4];
    assert 1 % |p| == 1;
    NormalizeSocks4(p[1]);
    assert p[1][|Socks4|..] == "5.6.7.8:1080";
  }
}
