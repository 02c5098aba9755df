# MobileReconX in Dafny

A verified model of the data shaping in MobileReconX, a reconnaissance tool that runs
five scans against one domain. The scans are passive subdomain enumeration, HTTP
probing, fingerprinting, directory brute-forcing and CVE keyword lookup. The command
line entry point chooses which of them run, clamps their pacing in safe mode, and
decides the exit status.

Every network reply is an input of the model. A request is a function from the URL to
an optional reply, where `None` means the request raised. Everything the tool computes
around the requests is modelled:

- which URLs are requested, in what order;
- which replies are kept, and the records built from them;
- the word-list, signature and keyword logic;
- the sorted set of names;
- the run plan and the exit status.

One module per source file, plus four shared modules:

- `Wrappers`: an `Option` type.
- `Text`: the Python `str` operations the tool uses. These are `strip`,
  `lstrip("/")`, ASCII `lower`, substring `in`, `splitlines` and
  `replace("*.", "")`.
- `Seqs`: keeping the present values of a sequence of optional outcomes, stopping at
  the first malformed element, and reordering by a permutation of indices.
- `Url`: the simple cases of section 5.2.2 of RFC 3986 (reference resolution) that
  the scanners rely on. `urljoin` stays a parameter. `Url.AgreesWithRfc` requires it to
  resolve those cases as the RFC does.

Exit status. `-d` is a required argument, so argparse itself rejects a command line
without it; the model starts from the parsed options. An empty domain (`-d ""`) reaches
the check in `main` and exits with 1 before any scan. Otherwise the scans run inside a
`try` that catches only `KeyboardInterrupt`, which exits with 0. Any other exception
escaping a scan ends the program with a traceback and status 1. The directory scan, for
one, opens its word list outside any `try`. How each scan ends (completed, interrupted,
or raising) is an input of `Recon.Launch`, the `outcome` function; the model does not
derive it from the scan modules.

The concurrent directory scan appends finds in whatever order its workers finish.
That order is an input permutation (`order`). `DirBrute.Brute` proves the finds are a
permutation of the word-order outcomes, and equal to them when the workers finish in
word order.

## Model

| member | source | states |
|---|---|---|
| Text.StripSpec | modules/dirbrute.py:46 | `strip()` yields a slice of the input with no leading or trailing whitespace, and everything cut off on either side is whitespace |
| Text.StripIdempotent | modules/dirbrute.py:46 | stripping twice is stripping once |
| Text.StripIdentity | modules/dirbrute.py:46 | a string is unchanged by `strip()` exactly when it has no whitespace at either end |
| Text.LStripCharSpec | modules/dirbrute.py:38 | `lstrip("/")` yields a suffix that does not start with '/', and what it removes is all '/' |
| Text.SplitLinesNoBreaks | modules/subdomains.py:36 | no line produced by `splitlines()` contains a line boundary character |
| Text.SplitLinesKeepsText | modules/subdomains.py:36 | `splitlines()` drops only line break characters: its lines written one after another are the input without its breaks |
| Text.RemoveStarDotIdentity | modules/subdomains.py:39 | `replace("*.", "")` leaves a string unchanged exactly when `*.` does not occur in it |
| Seqs.SomesSpec | modules/http_probe.py:40-42 | keeping the present outcomes keeps exactly them, in their original order, each at its original position's value |
| Seqs.TakeWhileSome | modules/subdomains.py:34-41 | a loop that raises at a malformed element has processed exactly the elements before the first malformed one |
| Seqs.SomesPermute | modules/dirbrute.py:33-34 | filtering two orderings of the same outcomes gives the same multiset of kept values |
| Seqs.PickPermutes | modules/dirbrute.py:37-39 | taking the outcomes in a permuted order of indices gives a permutation of them |
| Seqs.SomesPickPermutes | modules/dirbrute.py:33-39 | keeping the present outcomes in a permuted order keeps the same multiset of values as keeping them in index order, and the same sequence when the order is the identity |
| Url.SchemeHost | modules/dirbrute.py:44 | `scheme://host` is an authority base with no fragment, and `scheme://host/` is a directory base |
| DirBrute.ParseWordlistSpec | modules/dirbrute.py:45-46 | the word list holds, in file order, exactly the stripped form of each line whose stripped form is non-empty and whose raw line does not start with '#' |
| DirBrute.ParsedWordsStripped | modules/dirbrute.py:46 | every kept word is non-empty and has no whitespace at either end |
| DirBrute.IndentedHashKept | modules/dirbrute.py:46 | a '#' line is dropped, but an indented "  #x" is kept as "#x" |
| DirBrute.NormalizePathSpec | modules/dirbrute.py:38 | `strip().lstrip("/")` removes every leading '/' of the stripped word and ends in a non-space character |
| DirBrute.NormalizePathEmpty | modules/dirbrute.py:38 | a word normalises to the empty path exactly when its stripped form consists only of '/' |
| DirBrute.NormalizePathIdempotence | modules/dirbrute.py:38 | normalising twice equals normalising once exactly when the result is empty or does not start with whitespace |
| DirBrute.NormalizePathNotIdempotent | modules/dirbrute.py:38 | "/ a" normalises to " a", which normalises again to "a" |
| DirBrute.ProbeUrlCases | modules/dirbrute.py:31-44 | on both bases, a slashes-only word probes the base itself (empty reference) and a plain relative word probes base + word |
| DirBrute.OutcomesSpec | modules/dirbrute.py:14-35 | one outcome per word at most, in word order, carrying the word's URL and status; a word is reported exactly when its status is present, non-zero and below 400; a failed request never is |
| DirBrute.FindsPerUrl | modules/dirbrute.py:37-39 | a find occurs at most as many times as list words are probed at its URL |
| DirBrute.Worker | modules/dirbrute.py:29-35 | a worker reports its URL with its status exactly when the status is present, non-zero and below 400 |
| DirBrute.Brute | modules/dirbrute.py:21-40 | `found` is a permutation of the filtered word-order outcomes, equal to them when workers finish in word order; one pause per word |
| DirBrute.Run | modules/dirbrute.py:42-56 | an unreadable word list gives no result; otherwise the https finds come before the http finds, and each part is a permutation of its base's outcomes; a base that raises contributes nothing and the other still runs |
| HttpProbe.DefaultPathsPlain | modules/http_probe.py:10 | the three default paths are absolute-path references with nothing to merge or remove |
| HttpProbe.JoinDefaultPath | modules/http_probe.py:37-39 | joining a default path onto `scheme://domain` appends it, the absolute-path case of section 5.2.2 of RFC 3986 |
| HttpProbe.TargetsExact | modules/http_probe.py:10-39 | the targets are exactly six URLs: https first, then http, each with "/", "/robots.txt", "/.well-known/security.txt" in that order |
| HttpProbe.Run | modules/http_probe.py:31-45 | `results` keeps the record of each probe that did not raise, in attempt order, over the six targets; one pause follows every attempt |
| HttpProbe.ProbeScheme | modules/http_probe.py:37-45 | one scheme's pass appends the records of that scheme's successful probes, in path order, and one pause per path |
| HttpProbe.ProbeOne | modules/http_probe.py:39-45 | one probe appends its record when the request did not raise, and is followed by one pause |
| HttpProbe.RunResultsSpec | modules/http_probe.py:15-42 | at most six records in strictly increasing target order, one for every probe that did not raise; `url` is the requested URL, while `final_url`, `history` and status come from the response |
| Fingerprint.FirstOccurring | modules/fingerprint.py:32-35 | the index found is that of the first signature occurring in the text, or the list length when none occurs |
| Fingerprint.CheckWaf | modules/fingerprint.py:19-35 | `_check_waf` returns None or a member of the WAF list; a returned signature occurs in the lower-cased combined text and no earlier one does; None exactly when no signature occurs |
| Fingerprint.FirstCms | modules/fingerprint.py:47-50 | the index found is that of the first CMS with a check occurring case-insensitively in the page text or final URL, or the list length when none has one |
| Fingerprint.DetectCms | modules/fingerprint.py:12-53 | a failed request gives None; a non-empty generator is returned verbatim ahead of any signature; otherwise the result is the first CMS, in the order wordpress, joomla, drupal, shopify, with a hit, and None exactly when none has one |
| Fingerprint.Run | modules/fingerprint.py:55-78 | `results` keeps the record of each front page whose fetch did not raise, in URL order |
| Fingerprint.RunResultsSpec | modules/fingerprint.py:57-78 | at most two records, https before http, one for every fetch that did not raise; each carries its request URL, the page status and title, the page's `Server` header, the WAF guess from that header and the page, and the CMS guess of that URL |
| Fingerprint.BothReachable | modules/fingerprint.py:57-74 | when both fetches succeed, the records are for https://domain/ then http://domain/ |
| CveLookup.KeywordsSpec | modules/cve_lookup.py:25-47 | keywords are never empty and are always common products; a missing report gives exactly nginx, apache, openssl, jetty |
| CveLookup.AddServerOrCmsProducts | modules/cve_lookup.py:34-38 | the first product loop adds exactly the common products occurring in the entry's lower-cased server or CMS, a missing value counting as "" |
| CveLookup.AddTitleProducts | modules/cve_lookup.py:40-43 | the second product loop adds exactly the common products occurring in the entry's lower-cased title, and nothing when the title is missing or empty |
| CveLookup.FallbackProducts | modules/cve_lookup.py:46-47 | the fallback keywords are the first four common products |
| CveLookup.DeriveKeywords | modules/cve_lookup.py:32-47 | the keyword loops yield the products some entry names by lower-cased server, CMS or non-empty title, or the fallback when none is named |
| CveLookup.SearchKeyword | modules/cve_lookup.py:12-20 | a 200 reply whose body is a JSON object with a non-empty `results` list gives exactly that list; any other status, a body that is not a JSON object (a top-level array included) or a raised request gives no hits |
| CveLookup.Top10 | modules/cve_lookup.py:53 | the kept hits are the prefix of the hits of length ten, or all of them when there are at most ten |
| CveLookup.LookupAll | modules/cve_lookup.py:49-53 | the result's keys are exactly the keywords, each mapped to the top ten of its search hits |
| CveLookup.Run | modules/cve_lookup.py:22-66 | the result maps exactly the derived keywords, each to the first ten of its search hits (all when fewer), and to none when its search failed |
| Subdomains.LineNamesSpec | modules/subdomains.py:36-39 | a crt.sh line contributes a name exactly when its stripped form is non-blank, and the name is that form with every `*.` removed |
| Subdomains.BlankLinesAddNothing | modules/subdomains.py:38 | blank lines contribute no name |
| Subdomains.DnsNamesSpec | modules/subdomains.py:50-52 | each certspotter name contributes itself with `*.` removed and no stripping, and nothing else is contributed |
| Subdomains.CrtNamesSingleLine | modules/subdomains.py:36-39 | no crt.sh name contains a line boundary |
| Subdomains.StarDotSurvives | modules/subdomains.py:39-52 | the single left-to-right pass of `replace` turns "**.." into "*.", so a name may still contain `*.` |
| Subdomains.Insert | modules/subdomains.py:74 | inserting into a strictly sorted list keeps it strictly sorted and adds exactly the new name, if absent |
| Subdomains.SortedUnique | modules/subdomains.py:74 | two strictly sorted lists with the same names are equal |
| Subdomains.Sorted | modules/subdomains.py:74 | `sorted(found)` is strictly ascending and holds each name of the set exactly once |
| Subdomains.AddLineNames | modules/subdomains.py:36-39 | the line loop adds exactly the names of one `name_value` |
| Subdomains.AddDnsNames | modules/subdomains.py:51-52 | the name loop adds exactly the names of one certificate |
| Subdomains.AddCrtNames | modules/subdomains.py:29-41 | the crt.sh block adds the names of a 200 reply's elements up to the first malformed one, and nothing for another status or a failed request |
| Subdomains.AddCrtItems | modules/subdomains.py:34-39 | the element loop adds the names of every element before the first malformed one |
| Subdomains.AddSpotterNames | modules/subdomains.py:44-54 | the certspotter block adds the names of a 200 reply's certificates up to the first malformed one, and nothing for another status or a failed request |
| Subdomains.AddSpotterCerts | modules/subdomains.py:49-52 | the certificate loop adds the names of every certificate before the first malformed one |
| Subdomains.Run | modules/subdomains.py:24-74 | the result is strictly ascending (so duplicate-free), always contains the domain, and holds exactly the names collected from both sources |
| Subdomains.OrderIndependent | modules/subdomains.py:26-74 | the output depends only on the set of names collected, not on the order they arrived in |
| Subdomains.FailedSourceIsolated | modules/subdomains.py:32-57 | a failed source contributes nothing, while the other source and the domain still do |
| Recon.SafeConcurrency | mobilereconx.py:60 | safe concurrency is at most 8 and at most the requested value, unchanged when already at most 8 |
| Recon.SafeDelay | mobilereconx.py:61 | safe delay is at least 0.2 and at least the requested value, unchanged when already at least 0.2 |
| Recon.SafeClampIdempotent | mobilereconx.py:60-61 | applying the safe clamp twice gives the result of applying it once |
| Recon.Options.constructor | mobilereconx.py:32-45 | parsed options carry the given domain and flags, with default concurrency 10 and delay 0.15 |
| Recon.Options.ClampIfSafe | mobilereconx.py:58-61 | with `--safe`, concurrency and delay are clamped; without it they pass through unchanged; no other option changes |
| Recon.PlanSpec | mobilereconx.py:64-78 | a scan is planned exactly when `--full` or its own flag is set; the order is subdomains, probe, fingerprint, dirbrute, cve; dirbrute receives the default word list and cve receives no concurrency or delay |
| Recon.PlanCovers | mobilereconx.py:64-78 | a scan is planned exactly when `--full` or its own flag is set |
| Recon.PlanOrdered | mobilereconx.py:64-78 | planned scans follow the order subdomains, probe, fingerprint, dirbrute, cve, so none is planned twice |
| Recon.PlanCalls | mobilereconx.py:64-78 | every planned call gets the domain; dirbrute alone gets the default word list; cve gets no concurrency or delay and every other scan gets the current ones |
| Recon.PlanAsStages | mobilereconx.py:64-78 | the plan is the five flag-guarded calls, one after another |
| Recon.FullPlan | mobilereconx.py:64-78 | `--full` plans all five scans in the fixed order |
| Recon.ExecutedAppend | mobilereconx.py:63-86 | running two plans in sequence continues into the second exactly when the first ran to its end |
| Recon.HaltAppend | mobilereconx.py:63-86 | a run stops in the second plan only if it did not stop in the first |
| Recon.ExecutedSpec | mobilereconx.py:63-86 | the calls made are a prefix of the plan, all but the last completed; the whole plan runs exactly when no call stops it, and otherwise the last call made is the one that stopped it |
| Recon.ExitCode | mobilereconx.py:84-86 | the exit status is 1 exactly when an exception escaped, and 0 after a completed or interrupted run |
| Recon.Step | mobilereconx.py:64-78 | one flag-guarded call extends the calls made and the stop reason as the plan specification does |
| Recon.RunScans | mobilereconx.py:63-86 | the try block makes the planned calls in order until one does not complete, and yields the matching exit status |
| Recon.Launch | mobilereconx.py:50-86 | an empty domain exits with 1 before any scan and changes nothing; otherwise safe mode clamps, then the plan runs with the exit status above |
| Recon.InterruptExitsZero | mobilereconx.py:84-86 | a user interrupt exits with 0, and the interrupted scan is the last one started |

## Left out

- Concurrency in the directory scan (semaphore, task creation, `gather`, connector limits). Only the completion order is modelled, as an input permutation.
  A concurrency of 0 is not represented: `asyncio.Semaphore(0)` admits no worker, so on a non-empty word list the directory scan never finishes (modules/dirbrute.py:26). A negative concurrency makes the semaphore constructor raise inside the per-base `try` (modules/dirbrute.py:55), so that base contributes nothing. The model treats every concurrency alike.
- Network access. Requests, sessions, timeouts, redirects and `r.json()` are inputs of the model, with `None` for a request that raised.
- HTML parsing. The generator meta content and the page title are given as optional strings.
- General `urljoin`. Only the simple cases of section 5.2.2 of RFC 3986 are constrained (`Url.AgreesWithRfc`); other words may resolve to any URL.
- JSON report reading and writing, and `os.makedirs`. This is file I/O; the fingerprint report that the CVE lookup reads is an input.
- Pacing with `time.sleep` and `asyncio.sleep`. Only the number of pauses is counted. A negative `--delay`, which only `--safe` would clamp, makes `time.sleep` raise. The probe scan then ends after its first request (modules/http_probe.py:45). The subdomain scan ends after writing its report (modules/subdomains.py:73). The model counts those pauses as taken. `asyncio.sleep` in the directory scan accepts a negative delay.
- Logging, the banner, the `--verbose` and `--report` messages, and argparse itself. `Recon.Options` holds the parsed values.
- The unused `SOURCES` list and `_fetch_json` in modules/subdomains.py. They are dead code.
- CveLookup.SearchKeyword: the `or data` fallback is not modelled. A reply holds either the non-empty `results` list of a JSON object body or nothing. A body that is not a JSON object makes `data.get` raise, and that is caught, so it gives no hits. An object body whose `results` is missing, empty or not a list is not represented. The program returns the whole object in that case, and `hits[:10]` in `run` then raises.
- CveLookup.DeriveKeywords: report entries that are not dictionaries are not modelled; they would raise.
- Text.Lower: maps ASCII letters only. Python's full Unicode case mapping is not modelled.
- HttpProbe.ProbeUrl: headers are a map with lower-cased keys, standing in for the case-insensitive dictionary of the HTTP library.
- Fingerprint.CheckWaf: the text form of the header dictionary (`str(headers)`) is an input string.
- Subdomains.AddSpotterNames, Subdomains.AddSpotterCerts, Subdomains.Run (through `Subdomains.Collected`): a certificate whose `dns_names` holds a non-string part-way is modelled as malformed as a whole. The names before the bad element in that same certificate are not added, although the program adds them.
- DirBrute.NormalizePathIdempotence: normalisation is idempotent only when its result does not start with whitespace, so the lemma states that condition rather than unconditional idempotence.
- Recon.Launch: an interrupt that arrives outside the scans, such as during the banner or the domain check, is not modelled.
- Recon.Launch: how each scan ends is the input `outcome`. It is not derived from the scan models, so, for example, `DirBrute.Run` returning `None` for an unreadable word list is not linked to the `Crashed` ending.
