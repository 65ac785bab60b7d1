/** The second half of `websearch`: turning the fetched page into context text,
    or into an error sentence when fetching or parsing raised. */
module Scraping {
  import opened Wrappers
  import opened Whitespace

  /** What `requests.get(first_url, ...)` and `BeautifulSoup(...).body` produce:
      either the exception they raised (its `str(e)`), or a parsed page whose
      `<body>` text, as `get_text(separator=' ', strip=True)` extracts it, is
      `bodyText` (None when the page has no `<body>`). */
  datatype Fetched = Raised(detail: string) | Page(bodyText: Option<string>)

  /** "An error occurred while scraping the page: ", kept as its words so that
      proofs can take the sentence apart. */
  const ERROR_WORDS := ["An", "error", "occurred", "while", "scraping", "the", "page:"]
  const ERROR_PREFIX := Join(ERROR_WORDS) + " "

  /** `str(e)` of the AttributeError raised by `soup.body.get_text` when the page has no body. */
  const NO_BODY_DETAIL := "'NoneType' object has no attribute 'get_text'"

  /** The detail of the exception the `try` block raised, if it raised one. */
  function FailureDetail(f: Fetched): (d: Option<string>)
    ensures d.None? <==> f.Page? && f.bodyText.Some?
    ensures f.Raised? ==> d == Some(f.detail)
    ensures f.Page? && d.Some? ==> d.value == NO_BODY_DETAIL
  {
    match f
    case Raised(detail) => Some(detail)
    case Page(None) => Some(NO_BODY_DETAIL)
    case Page(Some(_)) => None
  }

  /** The string `websearch` returns for a fetched page: the whitespace-normalised
      body text, or the error sentence in place of content. */
  function ScrapedContent(f: Fetched): (content: string)
    ensures f.Page? && f.bodyText.Some? ==>
      IsNormalized(content) && Visible(content) == Visible(f.bodyText.value) &&
      Split(content) == Split(f.bodyText.value)
    ensures FailureDetail(f).Some? ==>
      |content| >= |ERROR_PREFIX| && content != "" && content[..|ERROR_PREFIX|] == ERROR_PREFIX &&
      content[|ERROR_PREFIX|..] == FailureDetail(f).value
  {
    match FailureDetail(f)
    case Some(detail) => ERROR_PREFIX + detail
    case None => Normalize(f.bodyText.value)
  }

  /** The content is empty exactly when the page was fetched and parsed and its
      body holds no visible character; a failure never yields "". */
  lemma ScrapedContentEmpty(f: Fetched)
    ensures ScrapedContent(f) == "" <==> f.Page? && f.bodyText.Some? && Visible(f.bodyText.value) == ""
  {
    if f.Page? && f.bodyText.Some? {
      NormalizeEmpty(f.bodyText.value);
    }
  }

  lemma ErrorWordsAreWords()
    ensures AllWords(ERROR_WORDS)
  {
    forall k | 0 <= k < |ERROR_WORDS| ensures IsWord(ERROR_WORDS[k]) {
      if k == 0 { assert IsWord("An"); }
      else if k == 1 { assert IsWord("error"); }
      else if k == 2 { assert IsWord("occurred"); }
      else if k == 3 { assert IsWord("while"); }
      else if k == 4 { assert IsWord("scraping"); }
      else if k == 5 { assert IsWord("the"); }
      else { assert IsWord("page:"); }
    }
  }

  /** The error sentence for a detail already in normal form is itself in
      normal form, so a page whose text is that sentence scrapes to exactly
      the content a real failure produces. */
  lemma {:induction false} ErrorSentenceLooksLikeContent(detail: string)
    requires IsNormalized(detail) && detail != ""
    ensures ScrapedContent(Page(Some(ERROR_PREFIX + detail))) == ScrapedContent(Raised(detail))
  {
    var words := ERROR_WORDS + Split(detail);
    ErrorWordsAreWords();
    NormalizedIsFixpoint(detail);
    JoinSplitNormalized(detail);
    JoinAppend(ERROR_WORDS, Split(detail));
    assert Join(words) == ERROR_PREFIX + detail;
    assert AllWords(words) by {
      forall k | 0 <= k < |words| ensures IsWord(words[k]) {
        if k >= |ERROR_WORDS| {
          assert words[k] == Split(detail)[k - |ERROR_WORDS|];
        }
      }
    }
    JoinNormalized(words);
    NormalizedIsFixpoint(ERROR_PREFIX + detail);
  }
}
