/** Documentation corpus records and the pure helpers of the extractor:
    corpus totals, lookup by URL, the markdown title rule and filename
    sanitising. Fetching pages and reading files are outside the model. */
module DocExtractor {
  import opened Text
  import opened Wrappers

  /** One documentation page (its free-form metadata is not modelled) */
  datatype Page = Page(url: string, title: string, content: string)

  const ExtractionDateKey := "extraction_date"

  /** The metadata after `__post_init__`: an extraction date is added when
      the caller supplied none, and nothing the caller supplied changes. */
  function PostInitMetadata(metadata: map<string, string>, now: string): (r: map<string, string>)
    ensures ExtractionDateKey in r
    ensures r.Keys == metadata.Keys + {ExtractionDateKey}
    ensures forall k :: k in metadata ==> r[k] == metadata[k]
    ensures ExtractionDateKey !in metadata ==> r[ExtractionDateKey] == now
  {
    if ExtractionDateKey in metadata then metadata else metadata[ExtractionDateKey := now]
  }

  /** A crawled or loaded documentation set; the clock reading `now` is a
      parameter of the constructor. */
  class DocumentationCorpus {
    const source: string
    const pages: seq<Page>
    var metadata: map<string, string>

    constructor (source: string, pages: seq<Page>, metadata: map<string, string>, now: string)
      ensures this.source == source && this.pages == pages
      ensures this.metadata == PostInitMetadata(metadata, now)
    {
      this.source := source;
      this.pages := pages;
      this.metadata := metadata;
      new;
      if ExtractionDateKey !in this.metadata {
        this.metadata := this.metadata[ExtractionDateKey := now];
      }
    }
  }

  /** Sum of the page content lengths */
  function TotalContentLength(pages: seq<Page>): nat
    decreases |pages|
  {
    if |pages| == 0 then 0 else TotalContentLength(pages[..|pages| - 1]) + |pages[|pages| - 1].content|
  }

  function Contents(pages: seq<Page>): (r: seq<string>)
    ensures |r| == |pages|
    ensures forall i :: 0 <= i < |pages| ==> r[i] == pages[i].content
  {
    seq(|pages|, i requires 0 <= i < |pages| => pages[i].content)
  }

  /** The total is additive over concatenated page lists. */
  lemma {:induction false} TotalContentLengthAppend(a: seq<Page>, b: seq<Page>)
    decreases |b|
    ensures TotalContentLength(a + b) == TotalContentLength(a) + TotalContentLength(b)
  {
    if |b| == 0 {
      assert a + b == a;
    } else {
      assert (a + b)[..|a + b| - 1] == a + b[..|b| - 1];
      assert (a + b)[|a + b| - 1] == b[|b| - 1];
      TotalContentLengthAppend(a, b[..|b| - 1]);
    }
  }

  /** The analyzer's `total_content_length` is the length of the contents
      joined with blank lines: the page total plus two characters between
      consecutive pages. */
  lemma {:induction false} JoinedContentLength(pages: seq<Page>)
    requires |pages| >= 1
    decreases |pages|
    ensures |Join(Contents(pages), "\n\n")| == TotalContentLength(pages) + 2 * (|pages| - 1)
  {
    if |pages| > 1 {
      JoinedContentLength(pages[1..]);
      assert Contents(pages)[1..] == Contents(pages[1..]);
      TotalContentLengthAppend([pages[0]], pages[1..]);
      assert [pages[0]] + pages[1..] == pages;
      assert [pages[0]][..0] == [];
    }
  }

  /** `get_page_by_url`: the first page whose url equals `url` */
  function GetPageByUrl(pages: seq<Page>, url: string): (r: Option<Page>)
    decreases |pages|
    ensures r.None? <==> forall i :: 0 <= i < |pages| ==> pages[i].url != url
    ensures r.Some? ==>
      exists i :: 0 <= i < |pages| && pages[i] == r.value && pages[i].url == url
                  && forall j :: 0 <= j < i ==> pages[j].url != url
  {
    if |pages| == 0 then None
    else if pages[0].url == url then Some(pages[0])
    else
      var r := GetPageByUrl(pages[1..], url);
      assert r.Some? ==>
        exists i :: 1 <= i < |pages| && pages[i] == r.value && pages[i].url == url
                    && forall j :: 0 <= j < i ==> pages[j].url != url by {
        if r.Some? {
          var i :| 0 <= i < |pages[1..]| && pages[1..][i] == r.value && pages[1..][i].url == url
            && forall j :: 0 <= j < i ==> pages[1..][j].url != url;
          assert pages[i + 1] == r.value;
          assert forall j :: 1 <= j < i + 1 ==> pages[j].url == pages[1..][j - 1].url;
        }
      }
      r
  }

  /** The title rule of `_extract_markdown_file`: the stripped text after
      "# " on the first line that starts with "# ", else the file stem. */
  method MarkdownTitle(content: string, stem: string) returns (title: string)
    ensures var lines := Split(content, '\n');
      (forall i :: 0 <= i < |lines| ==> !StartsWith(lines[i], "# ")) ==> title == stem
    ensures var lines := Split(content, '\n');
      (exists i :: 0 <= i < |lines| && StartsWith(lines[i], "# ")) ==>
        exists i :: 0 <= i < |lines| && StartsWith(lines[i], "# ") && title == Strip(lines[i][2..])
          && forall j :: 0 <= j < i ==> !StartsWith(lines[j], "# ")
  {
    title := stem;
    var lines := Split(content, '\n');
    var i := 0;
    while i < |lines|
      invariant 0 <= i <= |lines|
      invariant title == stem
      invariant forall j :: 0 <= j < i ==> !StartsWith(lines[j], "# ")
    {
      if StartsWith(lines[i], "# ") {
        title := Strip(lines[i][2..]);
        assert StartsWith(Split(content, '\n')[i], "# ");
        return;
      }
      i := i + 1;
    }
  }

  predicate IsFilenameChar(c: char) { IsAlnum(c) || c == '-' || c == '_' }

  /** The character step of `_sanitize_filename` */
  function SafeChar(c: char): char
  {
    if IsAlnum(c) || c == ' ' || c == '-' || c == '_' then c else '_'
  }

  function MapSafe(s: string): (r: string)
    ensures |r| == |s|
    ensures forall i :: 0 <= i < |s| ==> r[i] == SafeChar(s[i])
  {
    seq(|s|, i requires 0 <= i < |s| => SafeChar(s[i]))
  }

  function NonEmpty(parts: seq<string>): (r: seq<string>)
    decreases |parts|
    ensures forall k :: 0 <= k < |r| ==> |r[k]| > 0
    ensures forall k :: 0 <= k < |r| ==> exists j :: 0 <= j < |parts| && r[k] == parts[j]
  {
    if |parts| == 0 then []
    else if parts[0] == "" then NonEmpty(parts[1..])
    else
      var rest := NonEmpty(parts[1..]);
      assert forall k :: 0 <= k < |rest| ==> exists j :: 1 <= j < |parts| && rest[k] == parts[j] by {
        forall k | 0 <= k < |rest|
          ensures exists j :: 1 <= j < |parts| && rest[k] == parts[j]
        {
          var j :| 0 <= j < |parts[1..]| && rest[k] == parts[1..][j];
          assert rest[k] == parts[j + 1];
        }
      }
      [parts[0]] + rest
  }

  /** `s.split()` for a string whose only whitespace character is ' ':
      the maximal runs of non-space characters */
  function SpaceWords(s: string): seq<string>
  {
    NonEmpty(Split(s, ' '))
  }

  /** `_sanitize_filename`: unsafe characters become '_', space runs become
      one '_' (leading and trailing spaces vanish), at most 50 characters */
  function SanitizeFilename(name: string): string
  {
    Take(Join(SpaceWords(MapSafe(name)), "_"), 50)
  }

  lemma SanitizeFilenameChars(name: string)
    ensures |SanitizeFilename(name)| <= 50
    ensures All(SanitizeFilename(name), IsFilenameChar)
  {
    var m := MapSafe(name);
    var parts := Split(m, ' ');
    var words := SpaceWords(m);
    forall k | 0 <= k < |parts|
      ensures All(parts[k], IsFilenameChar)
    {
      JoinSplit(m, ' ');
      forall i | 0 <= i < |parts[k]|
        ensures IsFilenameChar(parts[k][i])
      {
        SplitPieceChars(m, ' ', k, i);
      }
    }
    JoinAll(words, "_", IsFilenameChar);
  }

  /** Every character of a piece of `Split(s, c)` is a character of `s`. */
  lemma {:induction false} SplitPieceChars(s: string, c: char, k: nat, i: nat)
    requires k < |Split(s, c)| && i < |Split(s, c)[k]|
    decreases |s|
    ensures Split(s, c)[k][i] in s
  {
    var rest := Split(s[1..], c);
    if s[0] == c {
      SplitPieceChars(s[1..], c, k - 1, i);
    } else if k == 0 {
      if i > 0 {
        SplitPieceChars(s[1..], c, 0, i - 1);
      }
    } else {
      SplitPieceChars(s[1..], c, k, i);
    }
  }

  /** A name made only of filename characters and at most 50 long is kept as is. */
  lemma SanitizeFilenameKeepsSafe(name: string)
    requires |name| <= 50 && All(name, IsFilenameChar)
    ensures SanitizeFilename(name) == name
  {
    assert MapSafe(name) == name;
    forall i | 0 <= i < |name|
      ensures name[i] != ' '
    {
      assert IsFilenameChar(name[i]);
    }
    SplitNoSep(name, ' ');
    assert [name][1..] == [];
    if name == "" {
      assert SpaceWords(name) == [];
    } else {
      assert Split(name, ' ') == [name];
      assert NonEmpty([name]) == [name] + NonEmpty([]);
    }
  }

  /** Sanitising is idempotent. */
  lemma SanitizeFilenameIdempotent(name: string)
    ensures SanitizeFilename(SanitizeFilename(name)) == SanitizeFilename(name)
  {
    SanitizeFilenameChars(name);
    SanitizeFilenameKeepsSafe(SanitizeFilename(name));
  }

  // `split()` on spaces: words are the maximal runs of non-space characters

  function Spaces(n: nat): (r: string)
    ensures |r| == n && forall i :: 0 <= i < n ==> r[i] == ' '
  {
    seq(n, i => ' ')
  }

  /** A leading space starts no word. */
  lemma SpaceWordsLeadingSpace(s: string)
    ensures SpaceWords(" " + s) == SpaceWords(s)
  {
    assert (" " + s)[1..] == s;
    assert ([""] + Split(s, ' '))[1..] == Split(s, ' ');
  }

  /** Any run of leading spaces starts no word. */
  lemma {:induction false} SpaceWordsLeadingSpaces(n: nat, s: string)
    decreases n
    ensures SpaceWords(Spaces(n) + s) == SpaceWords(s)
  {
    if n > 0 {
      var rest := Spaces(n - 1) + s;
      assert Spaces(n) + s == " " + rest;
      SpaceWordsLeadingSpace(rest);
      SpaceWordsLeadingSpaces(n - 1, s);
    } else {
      assert Spaces(n) + s == s;
    }
  }

  lemma {:induction false} SplitWordSpace(w: string, s: string)
    requires ' ' !in w
    decreases |w|
    ensures Split(w + " " + s, ' ') == [w] + Split(s, ' ')
  {
    if |w| == 0 {
      assert w + " " + s == " " + s;
      assert (" " + s)[1..] == s;
    } else {
      assert (w + " " + s)[1..] == w[1..] + " " + s;
      SplitWordSpace(w[1..], s);
      assert [w[0]] + w[1..] == w;
    }
  }

  /** A word followed by a space is the first word, whatever follows. */
  lemma SpaceWordsWord(w: string, s: string)
    requires w != "" && ' ' !in w
    ensures SpaceWords(w + " " + s) == [w] + SpaceWords(s)
  {
    SplitWordSpace(w, s);
    assert ([w] + Split(s, ' '))[1..] == Split(s, ' ');
  }

  /** A string without spaces is one word, or none when it is empty. */
  lemma SpaceWordsSingle(w: string)
    requires ' ' !in w
    ensures SpaceWords(w) == if w == "" then [] else [w]
  {
    SplitNoSep(w, ' ');
    assert [w][1..] == [];
    assert NonEmpty([w]) == (if w == "" then [] else [w] + NonEmpty([]));
  }

  /** Two words with spaces around them and at least one between them */
  lemma SpaceWordsTwo(a: string, b: string, m: nat, k: nat, l: nat)
    requires a != "" && b != "" && ' ' !in a && ' ' !in b && k >= 1
    ensures SpaceWords(Spaces(m) + a + Spaces(k) + b + Spaces(l)) == [a, b]
  {
    var rest := b + Spaces(l);
    assert SpaceWords(rest) == [b] by {
      SpaceWordsSingle(b);
      if l > 0 {
        assert rest == b + " " + Spaces(l - 1);
        SpaceWordsWord(b, Spaces(l - 1));
        assert Spaces(l - 1) + "" == Spaces(l - 1);
        SpaceWordsLeadingSpaces(l - 1, "");
        SpaceWordsSingle("");
      } else {
        assert rest == b;
      }
    }
    var tail := Spaces(k - 1) + rest;
    assert SpaceWords(tail) == [b] by { SpaceWordsLeadingSpaces(k - 1, rest); }
    assert SpaceWords(a + " " + tail) == [a, b] by { SpaceWordsWord(a, tail); }
    assert Spaces(m) + a + Spaces(k) + b + Spaces(l) == Spaces(m) + (a + " " + tail);
    SpaceWordsLeadingSpaces(m, a + " " + tail);
  }

  /** Filename characters and spaces pass the character step unchanged. */
  lemma MapSafeKeeps(s: string)
    requires forall i :: 0 <= i < |s| ==> IsFilenameChar(s[i]) || s[i] == ' '
    ensures MapSafe(s) == s
  {
  }

  /** `_sanitize_filename` on two words of filename characters: the spaces
      around them vanish and the run of spaces between them becomes one
      '_', the whole cut to 50 characters. */
  lemma SanitizeTwoWords(a: string, b: string, m: nat, k: nat, l: nat)
    requires a != "" && b != "" && All(a, IsFilenameChar) && All(b, IsFilenameChar) && k >= 1
    ensures SanitizeFilename(Spaces(m) + a + Spaces(k) + b + Spaces(l)) == Take(a + "_" + b, 50)
  {
    var name := Spaces(m) + a + Spaces(k) + b + Spaces(l);
    assert MapSafe(name) == name by {
      forall i | 0 <= i < |name| ensures IsFilenameChar(name[i]) || name[i] == ' ' {
        if m <= i < m + |a| {
          assert name[i] == a[i - m];
        } else if m + |a| + k <= i < m + |a| + k + |b| {
          assert name[i] == b[i - m - |a| - k];
        }
      }
      MapSafeKeeps(name);
    }
    assert ' ' !in a by { forall i | 0 <= i < |a| ensures a[i] != ' ' { assert IsFilenameChar(a[i]); } }
    assert ' ' !in b by { forall i | 0 <= i < |b| ensures b[i] != ' ' { assert IsFilenameChar(b[i]); } }
    SpaceWordsTwo(a, b, m, k, l);
    assert Join([a, b], "_") == a + "_" + Join([b], "_");
  }
}
