# dedao-dl download commands, modelled in Dafny

dedao-dl downloads content bought on the Dedao learning platform. Its three
download commands are defined in `cmd/download.go`:

- `dl <courseID> [articleID]` downloads a course, or one article of it.
- `dlo <bookID>` downloads a "daily audio book".
- `dle [<ID or EnID>]` downloads an ebook, its notes (format 4), or with `-a` every ebook.

Each command checks its positional arguments in a fixed order. It then
either returns one validation error or builds one typed downloader value
and passes it to the download pipeline. This project models that decision
as three pure functions over the argument list and the flag values, and
proves what each command accepts, what it rejects, and which request it
builds.

Files:

- `wrappers.dfy` (`Wrappers`): `Option` and `Result`.
- `strconv.dfy` (`Strconv`): Go's `strconv.Atoi` for a 64-bit `int`: an
  optional sign, one or more ASCII digits, and a value in
  [-2^63, 2^63 - 1]. Anything else is not an integer, including digit
  strings that overflow. `Itoa` is its inverse, used to state round trips.
- `download.dfy` (`Download`): the request and error datatypes, the flag
  record with its defaults, the three resolution functions and the lemmas
  about them.

Modelling decisions:

- The package-level flag variables become a `Flags` record passed by
  value. `DefaultFlags` holds their initial values: format 1, every switch off.
- A Go struct field that the source leaves unset keeps Go's zero value
  (`0` or `""`). So `EBookNotesDownload` carries both `id` and `enId`, and
  exactly one of them is taken from the argument.
- Go's `int` is taken to be 64 bits wide (`Strconv.GoInt`).
- The code neither rejects an empty identifier nor checks -t against the
  command: `dle ""` is accepted with the external ID `""`, and -t is passed
  through unchecked (`Download.EbookEmptyArgIsEnID`).
- Because unset fields keep Go's zero values, the notes request cannot tell
  the numeric ID 0 from the external ID `""`: `dle 0 -t 4` and `dle "" -t 4`
  build the same request (`Download.EbookNotesZeroIdIsEmptyEnID`).

## Model

| member | source | states |
|---|---|---|
| `Strconv.Atoi` | cmd/download.go:24 | parsing succeeds only when the text after an optional sign is a non-empty run of ASCII digits; the value is always a 64-bit Go int |
| `Strconv.AtoiItoa` | cmd/download.go:24 | every 64-bit integer, written in decimal, parses back to itself |
| `Strconv.AtoiLeadingZero` | cmd/download.go:24 | leading zeros are accepted and do not change the value |
| `Strconv.AtoiOfDigits` | cmd/download.go:24 | for every digit string, of any length: it parses, alone or after '+', exactly when its value is at most 2^63 - 1, and then to that value; every out-of-range digit string is "not an integer" |
| `Strconv.AtoiOfNegatedDigits` | cmd/download.go:24 | for every digit string: after '-' it parses exactly when its value is at most 2^63, and then to the negated value |
| `Strconv.AtoiRangeEdges` | cmd/download.go:24 | the range is asymmetric: 2^63 is rejected, -2^63 and 2^63 - 1 are accepted |
| `Download.ResolveCourse` | cmd/download.go:23-47 | a non-integer course ID gives the course-ID error whatever follows; a non-integer second argument gives the article-ID error; otherwise the result is a course request with that ID, the article ID (0 when absent), and -t, -m, -c, -o copied unchanged, and it succeeds exactly in that case |
| `Download.ResolveOdob` | cmd/download.go:57-72 | a non-integer ID gives the book-ID error even with extra arguments; an integer ID with extra arguments gives the argument error; a single integer ID, and only that, gives a book request with that ID and -t |
| `Download.ResolveEbook` | cmd/download.go:83-135 | -a gives the bulk request with -t for every argument list; otherwise no argument gives the missing-argument error, several give the argument error, and exactly one never fails; the request is a notes variant exactly when -t is 4, carries -t unchanged, and sets the numeric ID when the argument parses and the verbatim external ID otherwise |
| `Download.CourseIgnoresExtraArgs` | cmd/download.go:29-34 | arguments beyond the second never affect `dl`, so they never cause an error |
| `Download.CourseOfFormattedId` | cmd/download.go:24-43 | `dl n` asks for the whole course n (article 0) with the flags copied through |
| `Download.CourseArticleOfFormattedIds` | cmd/download.go:28-43 | `dl n m` asks for article m of course n |
| `Download.CourseIgnoresAllFlag` | cmd/download.go:36-43 | `dl` does not read -a |
| `Download.OdobIdErrorFirst` | cmd/download.go:59-65 | with several arguments `dlo` reports the book-ID error when the first is not an integer and the argument error only when it is |
| `Download.OdobOfFormattedId` | cmd/download.go:59-69 | `dlo n` asks for book n |
| `Download.OdobReadsOnlyType` | cmd/download.go:66-69 | `dlo` reads no flag but -t |
| `Download.EbookReadsOnlyTypeAndAll` | cmd/download.go:86-131 | `dle` reads no flags but -t and -a |
| `Download.EbookOfFormattedId` | cmd/download.go:99-131 | `dle n` asks for ebook n by numeric ID, or for its notes by numeric ID when -t is 4 |
| `Download.EbookOverflowIsEnID` | cmd/download.go:99-124 | every digit string whose value exceeds 2^63 - 1 does not parse, so `dle` sends it verbatim as an external ID, in the notes variant or the ebook variant |
| `Download.EbookNotesZeroIdIsEmptyEnID` | cmd/download.go:102-116 | with -t 4, the arguments "0" and "" build the same notes request, with ID 0 and external ID "" |
| `Download.EbookEmptyArgIsEnID` | cmd/download.go:91-124 | an empty argument is accepted and becomes the external ID "" |
| `Download.DefaultFlagsBehaviour` | cmd/download.go:12 | with every flag at its default, `dl n` is an mp3 download of course n with no merge, comments or ordering, `dlo n` is format 1, `dle n` is the HTML ebook by ID, and `dle` alone is the missing-argument error |
| `Download.CourseExample` | cmd/download.go:23-43 | `dl 555 -t 3 -m -c` asks for course 555 as merged Markdown with comments |

## Left out

- Command and flag registration with cobra, help text, and how cobra parses `-t` (cmd/download.go:14-22, 138-150). This is framework code. Only the defaults of line 12 are modelled.
- `AuthFunc`, the pre-run session setup (lines 22, 56, 82). It is defined in a file that is not part of this model.
- `app.Download` and `app.DownloadAllEBooks` (lines 44, 70, 88, 133). They do network and filesystem work in a package that is not part of this model. Each function returns the request value that would be passed to them. The error they may return is not modelled.
- The three commands share one `downloadType` variable (lines 142, 147, 148). The model passes the flag values as a parameter instead, so it does not capture state shared between commands.
- `Download.ResolveCourse`, `Download.ResolveOdob`: require at least one argument. The source reads `args[0]` without a length check (lines 24, 59) and would panic on an empty list.
- Exact error message texts. Each distinct error is one tag of `CmdError`. The "参数错误" message of `dlo` and `dle` is one tag, `ArgCountError`.
- `Strconv.Atoi`: modelled by its accepted grammar and range, not by the Go standard library's own loop. It assumes a 64-bit platform; on 32-bit, Go's `int` range would be narrower.
