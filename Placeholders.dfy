/** The synthesizer's text scanners: the URL pattern `https?://[^\s<>"']+`,
    the placeholder token `\$\{(\w+)\}`, placeholder names built from
    variable parts, and the substitution chains that put placeholders into
    code. */
module Placeholders {
  import opened Text
  import opened Wrappers

  const UrlPlaceholder := "${URL}"

  // ---------------------------------------------------------------------
  // URLs
  // ---------------------------------------------------------------------

  /** A character the URL pattern's run `[^\s<>"']` accepts */
  predicate IsUrlChar(c: char)
  {
    !IsSpace(c) && c != '<' && c != '>' && c != '"' && c != '\''
  }

  function UrlRunEnd(s: string, i: nat): (j: nat)
    requires i <= |s|
    decreases |s| - i
    ensures i <= j <= |s|
    ensures forall k :: i <= k < j ==> IsUrlChar(s[k])
    ensures j < |s| ==> !IsUrlChar(s[j])
  {
    if i < |s| && IsUrlChar(s[i]) then UrlRunEnd(s, i + 1) else i
  }

  /** The length of the scheme `https://` or `http://` at `i`, or 0 */
  function SchemeAt(s: string, i: nat): nat
  {
    if OccursAt(s, "https://", i) then 8 else if OccursAt(s, "http://", i) then 7 else 0
  }

  /** Where a URL match starting at `i` ends: the scheme, then the longest
      non-empty run of URL characters */
  function UrlAt(s: string, i: nat): (r: Option<nat>)
    requires i <= |s|
    ensures r.Some? <==> SchemeAt(s, i) > 0 && i + SchemeAt(s, i) < |s| && IsUrlChar(s[i + SchemeAt(s, i)])
    ensures r.Some? ==> i + SchemeAt(s, i) < r.value <= |s|
  {
    var k := SchemeAt(s, i);
    if k == 0 then None
    else
      var e := UrlRunEnd(s, i + k);
      if e > i + k then Some(e) else None
  }

  /** `re.findall` of the URL pattern from `i` on */
  function UrlsFrom(s: string, i: nat): seq<string>
    requires i <= |s|
    decreases |s| - i
  {
    if i == |s| then []
    else match UrlAt(s, i)
      case Some(e) => [s[i..e]] + UrlsFrom(s, e)
      case None => UrlsFrom(s, i + 1)
  }

  function Urls(s: string): seq<string>
  {
    UrlsFrom(s, 0)
  }

  /** `re.sub` of the URL pattern by `${URL}` from `i` on */
  function ReplaceUrlsFrom(s: string, i: nat): string
    requires i <= |s|
    decreases |s| - i
  {
    if i == |s| then []
    else match UrlAt(s, i)
      case Some(e) => UrlPlaceholder + ReplaceUrlsFrom(s, e)
      case None => [s[i]] + ReplaceUrlsFrom(s, i + 1)
  }

  /** The first step of `_generalize_code`: every URL becomes `${URL}` */
  function ReplaceUrls(s: string): string
  {
    ReplaceUrlsFrom(s, 0)
  }

  /** No URL starts at `i` or later */
  predicate NoUrlFrom(s: string, i: nat)
    requires i <= |s|
  {
    forall j :: i <= j <= |s| ==> UrlAt(s, j).None?
  }

  /** A scheme followed by a non-empty run of URL characters */
  predicate IsUrl(u: string)
  {
    (StartsWith(u, "https://") || StartsWith(u, "http://")) && |u| > 7 && All(u[7..], IsUrlChar)
  }

  /** A match is a URL. */
  lemma UrlMatchShape(s: string, i: nat)
    requires i <= |s| && UrlAt(s, i).Some?
    ensures IsUrl(s[i..UrlAt(s, i).value])
  {
    var e := UrlAt(s, i).value;
    var u := s[i..e];
    var k := SchemeAt(s, i);
    assert i + k < e;
    if k == 8 {
      assert u[..8] == s[i..i + 8] == "https://";
    } else {
      assert u[..7] == s[i..i + 7] == "http://";
    }
    forall m | 7 <= m < |u|
      ensures IsUrlChar(u[m])
    {
      if m >= k {
        assert u[m] == s[i + m];
      } else {
        assert k == 8 && m == 7 && u[m] == "https://"[7];
      }
    }
  }

  /** Every URL found is a scheme followed by a non-empty run of URL characters. */
  lemma {:induction false} UrlsFromShape(s: string, i: nat)
    requires i <= |s|
    decreases |s| - i
    ensures forall u :: u in UrlsFrom(s, i) ==> IsUrl(u)
  {
    if i < |s| {
      var r := UrlAt(s, i);
      if r.Some? {
        UrlsFromShape(s, r.value);
        UrlMatchShape(s, i);
        assert UrlsFrom(s, i) == [s[i..r.value]] + UrlsFrom(s, r.value);
      } else {
        UrlsFromShape(s, i + 1);
      }
    }
  }

  /** Without a URL, the scan finds nothing and changes nothing. */
  lemma {:induction false} NoUrlUnchanged(s: string, i: nat)
    requires i <= |s|
    requires NoUrlFrom(s, i)
    decreases |s| - i
    ensures UrlsFrom(s, i) == []
    ensures ReplaceUrlsFrom(s, i) == s[i..]
  {
    if i < |s| {
      assert UrlAt(s, i).None?;
      NoUrlUnchanged(s, i + 1);
      assert s[i..] == [s[i]] + s[i + 1..];
    }
  }

  /** The scan finds a URL exactly when a match starts somewhere. */
  lemma {:induction false} UrlsEmpty(s: string, i: nat)
    requires i <= |s|
    decreases |s| - i
    ensures |UrlsFrom(s, i)| == 0 <==> NoUrlFrom(s, i)
  {
    if i < |s| {
      var r := UrlAt(s, i);
      if r.None? {
        UrlsEmpty(s, i + 1);
        assert UrlsFrom(s, i) == UrlsFrom(s, i + 1);
      }
    }
  }

  /** The first URL found is the leftmost match. */
  lemma {:induction false} FirstUrlLeftmost(s: string, i: nat) returns (j: nat)
    requires i <= |s| && |UrlsFrom(s, i)| > 0
    decreases |s| - i
    ensures i <= j <= |s| && UrlAt(s, j).Some?
    ensures UrlsFrom(s, i)[0] == s[j..UrlAt(s, j).value]
    ensures forall m :: i <= m < j ==> UrlAt(s, m).None?
  {
    var r := UrlAt(s, i);
    if r.Some? {
      j := i;
      assert UrlsFrom(s, i) == [s[i..r.value]] + UrlsFrom(s, r.value);
    } else {
      assert UrlsFrom(s, i) == UrlsFrom(s, i + 1);
      j := FirstUrlLeftmost(s, i + 1);
    }
  }

  /** A text without "://" holds no URL, so the URL pass leaves it as it is. */
  lemma UrlFreeUnchanged(s: string)
    requires !Contains(s, "://")
    ensures Urls(s) == []
    ensures ReplaceUrls(s) == s
  {
    forall j | 0 <= j <= |s|
      ensures UrlAt(s, j).None?
    {
      if OccursAt(s, "https://", j) {
        assert s[j + 5..j + 8] == "https://"[5..8];
        assert OccursAt(s, "://", j + 5);
      } else if OccursAt(s, "http://", j) {
        assert s[j + 4..j + 7] == "http://"[4..7];
        assert OccursAt(s, "://", j + 4);
      }
    }
    NoUrlUnchanged(s, 0);
  }

  // ---------------------------------------------------------------------
  // Placeholder tokens `${NAME}`
  // ---------------------------------------------------------------------

  /** A placeholder name: one or more word characters */
  predicate IsName(n: string)
  {
    |n| > 0 && All(n, IsWordChar)
  }

  function Placeholder(name: string): string
  {
    "${" + name + "}"
  }

  /** Where a token `${\w+}` starting at `i` ends */
  function TokenAt(s: string, i: nat): (r: Option<nat>)
    requires i <= |s|
    ensures r.Some? ==> i + 4 <= r.value <= |s|
  {
    if i + 2 <= |s| && s[i] == '$' && s[i + 1] == '{' then
      var e := WordRunEnd(s, i + 2);
      if e > i + 2 && e < |s| && s[e] == '}' then Some(e + 1) else None
    else None
  }

  /** `re.findall(r'\$\{(\w+)\}', s)` from `i` on: the names, in order */
  function TokensFrom(s: string, i: nat): seq<string>
    requires i <= |s|
    decreases |s| - i
  {
    if i == |s| then []
    else match TokenAt(s, i)
      case Some(e) => [s[i + 2..e - 1]] + TokensFrom(s, e)
      case None => TokensFrom(s, i + 1)
  }

  function Tokens(s: string): seq<string>
  {
    TokensFrom(s, 0)
  }

  /** A token found at `i` is a name written as a placeholder there. */
  lemma TokenAtShape(s: string, i: nat)
    requires i <= |s| && TokenAt(s, i).Some?
    ensures var e := TokenAt(s, i).value;
      IsName(s[i + 2..e - 1]) && OccursAt(s, Placeholder(s[i + 2..e - 1]), i)
  {
    var e := TokenAt(s, i).value;
    WordRun(s, i + 2);
    var n := s[i + 2..e - 1];
    assert forall k :: 0 <= k < |n| ==> n[k] == s[i + 2 + k];
    assert s[i..e] == Placeholder(n);
  }

  /** A placeholder written at `i` is a token there. */
  lemma PlaceholderIsToken(s: string, n: string, i: nat)
    requires IsName(n) && OccursAt(s, Placeholder(n), i)
    ensures TokenAt(s, i) == Some(i + |n| + 3)
    ensures s[i + 2..i + |n| + 2] == n
  {
    var p := Placeholder(n);
    assert s[i..i + |p|] == p;
    forall k | i + 2 <= k < i + 2 + |n|
      ensures IsWordChar(s[k])
    {
      assert s[k] == p[k - i] == n[k - i - 2];
    }
    assert s[i] == p[0] == '$' && s[i + 1] == p[1] == '{';
    assert s[i + 2 + |n|] == p[|n| + 2] == '}';
    WordRunStops(s, i + 2, i + 2 + |n|);
    var u := s[i + 2..i + |n| + 2];
    assert forall k :: 0 <= k < |n| ==> u[k] == p[k + 2] == n[k];
  }

  /** A run of word characters that stops at a non-word character ends there. */
  lemma {:induction false} WordRunStops(s: string, i: nat, j: nat)
    requires i <= j < |s|
    requires forall k :: i <= k < j ==> IsWordChar(s[k])
    requires !IsWordChar(s[j])
    decreases j - i
    ensures WordRunEnd(s, i) == j
  {
    if i < j {
      WordRunStops(s, i + 1, j);
    }
  }

  /** Every token found from `i` on is a name written as a placeholder. */
  lemma {:induction false} TokensFromSound(s: string, i: nat, n: string)
    requires i <= |s| && n in TokensFrom(s, i)
    decreases |s| - i
    ensures IsName(n) && Contains(s, Placeholder(n))
  {
    match TokenAt(s, i)
    case Some(e) =>
      if n == s[i + 2..e - 1] {
        TokenAtShape(s, i);
      } else {
        TokensFromSound(s, e, n);
      }
    case None =>
      TokensFromSound(s, i + 1, n);
  }

  /** A placeholder at `j` is found by a scan starting at or before it: no
      token ends past a `$`. */
  lemma {:induction false} TokensFromComplete(s: string, i: nat, n: string, j: nat)
    requires i <= j && IsName(n) && OccursAt(s, Placeholder(n), j)
    decreases |s| - i
    ensures n in TokensFrom(s, i)
  {
    PlaceholderIsToken(s, n, j);
    if i == j {
    } else {
      match TokenAt(s, i)
      case Some(e) =>
        WordRun(s, i + 2);
        assert s[j] == '$';
        assert e <= j;
        TokensFromComplete(s, e, n, j);
      case None =>
        TokensFromComplete(s, i + 1, n, j);
    }
  }

  /** A name is among the tokens of `s` exactly when it is written as a
      placeholder somewhere in `s`. */
  lemma TokensSpec(s: string, n: string)
    ensures n in Tokens(s) <==> IsName(n) && Contains(s, Placeholder(n))
  {
    if n in Tokens(s) {
      TokensFromSound(s, 0, n);
    }
    if IsName(n) && Contains(s, Placeholder(n)) {
      var j :| 0 <= j <= |s| && OccursAt(s, Placeholder(n), j);
      TokensFromComplete(s, 0, n, j);
    }
  }

  // ---------------------------------------------------------------------
  // Placeholders from variable parts
  // ---------------------------------------------------------------------

  /** `s` without its leading non-word characters */
  function DropNonWord(s: string): (r: string)
    decreases |s|
    ensures |r| <= |s|
    ensures |r| > 0 ==> IsWordChar(r[0])
  {
    if |s| > 0 && !IsWordChar(s[0]) then DropNonWord(s[1..]) else s
  }

  /** `re.sub(r'\W+', '_', s)`: every run of non-word characters becomes one '_' */
  function CollapseNonWord(s: string): (r: string)
    decreases |s|
    ensures All(r, IsWordChar)
    ensures |s| > 0 ==> |r| > 0
  {
    if |s| == 0 then ""
    else if IsWordChar(s[0]) then [s[0]] + CollapseNonWord(s[1..])
    else "_" + CollapseNonWord(DropNonWord(s[1..]))
  }

  /** The placeholder name of a variable part */
  function PlaceholderName(part: string): (r: string)
    ensures |r| == |CollapseNonWord(part)|
  {
    Upper(CollapseNonWord(part))
  }

  /** A non-empty variable part gives a well-formed placeholder name. */
  lemma PlaceholderNameIsName(part: string)
    requires |part| > 0
    ensures IsName(PlaceholderName(part))
  {
    var c := CollapseNonWord(part);
    forall k | 0 <= k < |c|
      ensures IsWordChar(PlaceholderName(part)[k])
    {
      assert IsWordChar(c[k]);
    }
  }

  /** `_add_placeholders`: each variable part, in list order, replaced
      everywhere by its placeholder */
  function AddPlaceholders(content: string, parts: seq<string>): string
    decreases |parts|
  {
    if |parts| == 0 then content
    else
      var n := |parts| - 1;
      ReplaceAll(AddPlaceholders(content, parts[..n]), parts[n], Placeholder(PlaceholderName(parts[n])))
  }

  /** Variable parts that do not occur leave the content as it is. */
  lemma {:induction false} AddPlaceholdersAbsent(content: string, parts: seq<string>)
    requires forall p :: p in parts ==> |p| > 0 && !Contains(content, p)
    decreases |parts|
    ensures AddPlaceholders(content, parts) == content
  {
    if |parts| > 0 {
      var n := |parts| - 1;
      AddPlaceholdersAbsent(content, parts[..n]);
      ReplaceAllAbsent(content, parts[n], Placeholder(PlaceholderName(parts[n])));
    }
  }

  /** The placeholder of a single variable part that occurs in the content
      is written into it, and is then read back as a token. */
  lemma AddOnePlaceholder(content: string, part: string)
    requires |part| > 0 && Contains(content, part)
    ensures PlaceholderName(part) in Tokens(AddPlaceholders(content, [part]))
  {
    var p := Placeholder(PlaceholderName(part));
    assert [part][..0] == [];
    ReplaceAllPresent(content, part, p);
    PlaceholderNameIsName(part);
    TokensSpec(AddPlaceholders(content, [part]), PlaceholderName(part));
  }
}
