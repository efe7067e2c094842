# Madrid business-collaborator scraper: verified model of the extraction core

The tool asks a places provider for businesses of one category near a zone
of the Madrid area. It fetches each business's website and scans the page
text for phone numbers and social-media links. Each business becomes one
twelve-column row, and every missing value in that row is the placeholder
`"Sin datos por el momento"`. This project models that core in Dafny:

- `Common`: Python's `None`, the placeholder string, the ASCII character
  classes, and `str.join`.
- `Phones` (`extract_phones`): the two `re.findall` scans, for landlines
  `9\d{8}` and mobiles `[67]\d{8}`. Each is a recursive left-to-right scanner
  that resumes after each match. The module proves that the scanner keeps
  `re.findall`'s promise (every entry is a match, entries never overlap, no
  match is missed) and that this promise determines the result uniquely.
  It also proves the placeholder rule: a list is the placeholder list exactly
  when the text has no match.
- `Social` (`extract_social_media`): `re.search` as "leftmost position where
  the prefix is followed by a class character, then the longest run of class
  characters". The dictionary-filling `for` loop is a method with loop
  invariants, proved equal to a four-slot map.
- `Details` (`get_business_details`): the row assembly. The provider's
  reply, the website body and the e-mail extractor are inputs.
- `Orchestrator` (the search button): the bounded collect-and-filter loop as
  a method. It is proved equal to a specification function, and lemmas show
  that the result is an order-preserving selection of the successful fetches.
  The branches that end a run (location not found, no places, no businesses)
  are modelled too.

Character classes are ASCII only. `\d` is `0`-`9`, and `\w` is `[A-Za-z0-9_]`.

Two behaviours of the code differ from what a reader might expect. The model
keeps both as written:

- A text that contains `612345678` does not always yield that mobile number.
  Each scan resumes after its own match, so `"7612345678"` yields only
  `"761234567"` (lemma `Phones.MobileInsideMobileNotReported`). The two scans
  are independent of each other (`Phones.LandlineAndMobileOverlap`).
- A website reply with an error status is not treated as a failed fetch. The
  code scans `response.text` of any reply, and only an exception (timeout,
  DNS, connection) leaves the content empty. In the model, `response` is the
  body of any reply, or `None` when the request raised.

## Model

| member | source | states |
|---|---|---|
| Common.Join | madrid_scraper.py:114-116 | `', '.join` of one element is that element; a non-empty join starts with its first element |
| Common.JoinEnds | madrid_scraper.py:114-116 | in a join of several elements the separator follows the first element, and a non-empty join ends with its last element |
| Phones.JoinedLayout | madrid_scraper.py:114-115 | `', '.join` of `n` nine-character numbers is `11n - 2` characters long, with number `i` at offset `11i` and `", "` between each number and the next |
| Phones.JoinedPhones | madrid_scraper.py:114-115 | a joined non-empty list of numbers is never the placeholder and splits back into that list |
| Phones.ScanFrom | madrid_scraper.py:77-78 | every reported position is a match at or after the scan start, and reported matches are pairwise non-overlapping and increasing |
| Phones.ScanCovers | madrid_scraper.py:77-78 | the scan misses no match: every match position lies inside a reported match |
| Phones.ScanIsFindAll | madrid_scraper.py:77-78 | the scanner keeps `re.findall`'s promise (matches only, left to right, no overlap, none missed) |
| Phones.FindAllUnique | madrid_scraper.py:77-78 | any position list keeping that promise equals the scanner's, so the promise determines `findall` |
| Phones.FindAll | madrid_scraper.py:74-78 | entries are the nine-character substrings at the scan positions; each is a whole pattern match; the list is empty exactly when the text holds no match |
| Phones.ExtractPhones | madrid_scraper.py:72-83 | both lists are non-empty; a list is `[Sentinel]` exactly when its pattern matches nowhere; otherwise the list is exactly `re.findall`'s result (`FindAll`), and every entry is a 9-digit number starting with `9` (landline) or `6`/`7` (mobile) |
| Phones.LandlineAndMobileOverlap | madrid_scraper.py:74-78 | the two scans are independent: `"9612345678"` gives landline `"961234567"` and mobile `"612345678"` |
| Phones.MobileInsideMobileNotReported | madrid_scraper.py:75-78 | a number starting inside an earlier match of the same pattern is not reported: `"7612345678"` gives only `"761234567"` |
| Phones.SplitJoin | madrid_scraper.py:114-115 | a `", "`-joined list of nine-character numbers splits back into exactly that list |
| Social.RunEnd | madrid_scraper.py:59-62 | the greedy `+` stops at the first non-class character or the end of the text, and everything before it is in the class |
| Social.FirstMatch | madrid_scraper.py:66 | the position returned is a match start and no earlier position from the start is one; `None` means no match start at all |
| Social.Search | madrid_scraper.py:66-68 | `re.search(...).group(0)`: `None` exactly when the pattern matches nowhere; otherwise a string that starts with the platform's prefix and is longer than it |
| Social.SearchSpan | madrid_scraper.py:66-68 | `None` exactly when the pattern matches nowhere; otherwise the span is the leftmost, longest match |
| Social.SearchFindsLeftmostLongest | madrid_scraper.py:66-68 | whenever a leftmost-longest match exists, `re.search` returns exactly that substring |
| Social.SearchShape | madrid_scraper.py:59-68 | a found link starts with the platform's domain prefix, followed by a non-empty run of class characters; `None` exactly when there is no match |
| Social.SocialMedia | madrid_scraper.py:51-56 | the dictionary always has exactly the four platform keys |
| Social.SocialMediaAt | madrid_scraper.py:65-68 | each platform's slot holds that platform's search result |
| Social.FilledStep | madrid_scraper.py:65-68 | one turn of the loop stores the platform's match when there is one and leaves every other slot as it was |
| Social.FilledAll | madrid_scraper.py:65-70 | after the last platform, every slot holds its platform's search result |
| Social.ExtractSocialMedia | madrid_scraper.py:49-70 | the loop leaves exactly the four keys, each holding its platform's first match or `None`; the result does not depend on `website` |
| Details.PhoneField | madrid_scraper.py:114-115 | a phone column is the placeholder exactly when the text has no number of that kind; otherwise it is `', '.join` of exactly the numbers `re.findall` found, and it splits back into them, in order |
| Details.SocialField | madrid_scraper.py:117-120 | a social column is the placeholder exactly when the page has no match for that platform; otherwise it is the link found |
| Details.AssembleRecord | madrid_scraper.py:105-122 | provider fields are the provider's value or the placeholder, and the rating is the number or the placeholder text; each phone column is the `PhoneField` over page text plus the provider's phone number (placeholder exactly when there is no number, otherwise the joined numbers); each social column is the `SocialField` over the page (placeholder exactly when there is no link, otherwise the link); the e-mail column is the joined list when the list is non-empty, and the placeholder when it is empty |
| Details.WebsiteContent | madrid_scraper.py:96-102 | the text scanned is the website's body when the place has a website and the GET returned; otherwise it is `""` |
| Details.BusinessDetails | madrid_scraper.py:85-125 | with a working e-mail extractor, a row comes back exactly when the provider call succeeded, and that row is the one assembled over the website content and the extractor's findings on it |
| Details.PageIsScanned | madrid_scraper.py:96-122 | when the website was fetched, the social columns are computed over its body, the phone columns over the body followed by the provider's number, and the e-mail column from the extractor's findings on the body |
| Details.NoPageStillGivesRecord | madrid_scraper.py:96-106 | with no website, or a failed fetch, the row still comes back; its social columns are the placeholder and its phone columns come from the provider's number alone |
| Details.BusinessDetailsAsWritten | madrid_scraper.py:85-125 | `get_business_details` as written, with the undefined `extract_emails` raising and the handler at line 123 catching it: the result is `None` for every input |
| Orchestrator.Take | madrid_scraper.py:190 | `results[:max_resultados]` is a prefix of length `min(max_resultados, len(results))` |
| Orchestrator.Collected | madrid_scraper.py:187-193 | the collected list is never longer than the candidate list |
| Orchestrator.SuccessIndices | madrid_scraper.py:190-193 | the successful candidates' positions, strictly increasing, with every successful position present |
| Orchestrator.CollectedIsOrderedSelection | madrid_scraper.py:187-193 | the collected records are exactly the successful fetches' values, in candidate order, with no `None` |
| Orchestrator.CollectedAppend | madrid_scraper.py:190-193 | collecting over two runs of candidates concatenates the two collections |
| Orchestrator.AllFetchesSucceed | madrid_scraper.py:190-193 | when every fetch succeeds, each candidate gives its record, in order |
| Orchestrator.OneFailureOmitted | madrid_scraper.py:190-193 | one failing candidate is left out silently and every other record is kept |
| Orchestrator.CollectBusinesses | madrid_scraper.py:187-195 | the loop's list equals the collection over `results[:max_resultados]` and has at most `max_resultados` entries |
| Orchestrator.RunSearch | madrid_scraper.py:171-222 | the run ends in "location not found", "failed", "no places", "no businesses" or a non-empty bounded result, each in exactly its case |
| Orchestrator.NothingCollected | madrid_scraper.py:190-193 | when no fetch succeeds, the loop collects nothing |
| Orchestrator.AsWrittenSearchFindsNothing | madrid_scraper.py:107-125 | as written, the loop collects nothing, however the providers answer |
| Orchestrator.CorrectedSearchKeepsAnswered | madrid_scraper.py:190-193 | with the e-mail extractor present, every candidate the provider answers for gives a row |

## Findings

| source | as written | input that shows it | evidently intended | confidence | as-written member | corrected member |
|---|---|---|---|---|---|---|
| madrid_scraper.py:107 | `extract_emails(website_content)` calls a name that the module never defines. The resulting NameError is caught at line 123, so `get_business_details` returns `None` for every place | any place the provider answers for, even a reply with only a `name` | the function returns the assembled row, with the e-mails found on the page | high (the name appears nowhere else in the module); not executed | Details.BusinessDetailsAsWritten (lemma Orchestrator.AsWrittenSearchFindsNothing) | Details.BusinessDetails (lemmas Details.PageIsScanned, Details.NoPageStillGivesRecord, Orchestrator.CorrectedSearchKeepsAnswered) |

## Left out

- Streamlit interface: widgets, sliders, spinner, progress bar, messages, footer. This is presentation only. The progress value `(i + 1) / max_resultados` is a float and is not modelled.
- Network calls: geocoding, nearby search, place details, `requests.get` with its timeout, and `time.sleep`. Their results are inputs. The geocoder's reply is reduced to "found a candidate or not", and the nearby search's reply to its result list. The detail fetch is a function of the candidate, so the model is deterministic: one candidate always gives the same answer.
- The nearby search's request arguments (radius `radio_busqueda * 1000`, keyword, language, `max_results`) are not modelled, because they only shape the request.
- pandas table construction and CSV export. This is a library wrapper.
- The thread-pool import. It is never used, so there is no concurrency to model.
- `extract_emails` is not part of this model. The name is undefined in the module (see Findings), and the corrected detail fetch takes the e-mail extractor as a parameter.
- Unicode: Python's `\d` and `\w` also match non-ASCII digits and letters. The model accepts ASCII only.
- Provider values are typed: names, addresses, websites, postal codes and phone numbers are strings, and the rating is a number. A key present with the value `None` is treated as absent.
- A missing `place_id` key in a candidate raises inside the loop, and the outer handler catches it. The model does not represent this, because the loop's fetch is total.
