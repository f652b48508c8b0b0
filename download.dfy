/**
 * The three download commands of cmd/download.go: `dl` (course), `dlo`
 * (daily audio book) and `dle` (ebook). Each command turns its positional
 * arguments and the option flags into either one validation error or one
 * request value, which the program then hands to the download pipeline.
 * The model stops at that value.
 */
module Download {
  import opened Wrappers
  import opened Strconv

  /**
   * What a command hands on: one constructor per downloader struct, plus
   * the bulk "all ebooks" call. A field the source leaves unset keeps Go's
   * zero value (0 or "").
   */
  datatype Request =
    | CourseDownload(downloadType: GoInt, id: GoInt, aid: GoInt, isMerge: bool, isComment: bool, isOrder: bool)
    | OdobDownload(downloadType: GoInt, id: GoInt)
    | EBookNotesDownload(downloadType: GoInt, id: GoInt, enId: string)
    | EBookDownloadByID(downloadType: GoInt, id: GoInt)
    | EBookDownloadByEnID(downloadType: GoInt, enId: string)
    | AllEBooks(downloadType: GoInt)

  /** One tag per distinct error a command returns. */
  datatype CmdError =
    | CourseIdError     // dl: the course ID is not an integer
    | ArticleIdError    // dl: the article ID is not an integer
    | OdobIdError       // dlo: the book ID is not an integer
    | ArgCountError     // dlo, dle: more than one argument
    | MissingEbookArg   // dle: neither an ID nor -a

  /** The option flags: -t, -m, -c, -o and -a. */
  datatype Flags = Flags(downloadType: GoInt, merge: bool, comment: bool, order: bool, all: bool)

  /** The flag values before the command line sets any: format 1, every switch off. */
  const DefaultFlags: Flags := Flags(1, false, false, false, false)

  /** "Parses as an integer", in the sense of strconv.Atoi. */
  predicate IsInt(s: string) {
    Atoi(s).Some?
  }

  function IntValue(s: string): GoInt
    requires IsInt(s)
  {
    Atoi(s).value
  }

  /** Which variant the ebook command picks for format `downloadType`. */
  predicate IsNotesFormat(downloadType: int) {
    downloadType == 4
  }

  /**
   * The single identifier an ebook request carries for argument `arg`: the
   * numeric ID when `arg` parses as an integer, otherwise `arg` itself as the
   * external ID. The other identifier field, if the struct has one, stays zero.
   */
  predicate IdentifiesBy(req: Request, arg: string) {
    match req
    case EBookNotesDownload(_, id, enId) =>
      if IsInt(arg) then id == IntValue(arg) && enId == "" else id == 0 && enId == arg
    case EBookDownloadByID(_, id) => IsInt(arg) && id == IntValue(arg)
    case EBookDownloadByEnID(_, enId) => !IsInt(arg) && enId == arg
    case _ => false
  }

  /** `dl <courseID> [articleID]`. The source reads args[0] unguarded, so an argument is required. */
  function ResolveCourse(args: seq<string>, flags: Flags): (r: Result<Request, CmdError>)
    requires |args| >= 1
    ensures !IsInt(args[0]) ==> r == Err(CourseIdError)
    ensures IsInt(args[0]) && |args| > 1 && !IsInt(args[1]) ==> r == Err(ArticleIdError)
    ensures r.Ok? <==> IsInt(args[0]) && (|args| == 1 || IsInt(args[1]))
    ensures r.Ok? ==> r.value.CourseDownload? && r.value.id == IntValue(args[0])
    ensures r.Ok? ==> r.value.aid == if |args| == 1 then 0 else IntValue(args[1])
    ensures r.Ok? ==> r.value.downloadType == flags.downloadType && r.value.isMerge == flags.merge
                      && r.value.isComment == flags.comment && r.value.isOrder == flags.order
  {
    var id := Atoi(args[0]);
    if id.None? then Err(CourseIdError)
    else
      var aid := if |args| > 1 then Atoi(args[1]) else Some(0);
      if aid.None? then Err(ArticleIdError)
      else Ok(CourseDownload(flags.downloadType, id.value, aid.value, flags.merge, flags.comment, flags.order))
  }

  /** `dlo <bookID>`. The source reads args[0] unguarded, so an argument is required. */
  function ResolveOdob(args: seq<string>, flags: Flags): (r: Result<Request, CmdError>)
    requires |args| >= 1
    ensures !IsInt(args[0]) ==> r == Err(OdobIdError)
    ensures IsInt(args[0]) && |args| > 1 ==> r == Err(ArgCountError)
    ensures r.Ok? <==> IsInt(args[0]) && |args| == 1
    ensures r.Ok? ==> r.value == OdobDownload(flags.downloadType, IntValue(args[0]))
  {
    var id := Atoi(args[0]);
    if id.None? then Err(OdobIdError)
    else if |args| > 1 then Err(ArgCountError)
    else Ok(OdobDownload(flags.downloadType, id.value))
  }

  /** `dle [<ID or EnID>] [-a]`. */
  function ResolveEbook(args: seq<string>, flags: Flags): (r: Result<Request, CmdError>)
    ensures flags.all ==> r == Ok(AllEBooks(flags.downloadType))
    ensures !flags.all && |args| == 0 ==> r == Err(MissingEbookArg)
    ensures !flags.all && |args| > 1 ==> r == Err(ArgCountError)
    ensures r.Err? <==> !flags.all && |args| != 1
    ensures !flags.all && |args| == 1 ==>
              r.Ok? && r.value.downloadType == flags.downloadType
              && (r.value.EBookNotesDownload? <==> IsNotesFormat(flags.downloadType))
              && IdentifiesBy(r.value, args[0])
  {
    if flags.all then Ok(AllEBooks(flags.downloadType))
    else if |args| == 0 then Err(MissingEbookArg)
    else if |args| > 1 then Err(ArgCountError)
    else
      var id := Atoi(args[0]);
      if IsNotesFormat(flags.downloadType) then
        if id.None? then Ok(EBookNotesDownload(flags.downloadType, 0, args[0]))
        else Ok(EBookNotesDownload(flags.downloadType, id.value, ""))
      else
        if id.None? then Ok(EBookDownloadByEnID(flags.downloadType, args[0]))
        else Ok(EBookDownloadByID(flags.downloadType, id.value))
  }

  // ---------------------------------------------------------------------
  // Properties relating several calls
  // ---------------------------------------------------------------------

  /** `dl` never looks past its second argument. */
  lemma CourseIgnoresExtraArgs(args: seq<string>, flags: Flags)
    requires |args| > 2
    ensures ResolveCourse(args, flags) == ResolveCourse(args[..2], flags)
  {
  }

  /** `dl <n>` for any Go int n, written the way Itoa writes it, asks for course n from its start. */
  lemma CourseOfFormattedId(n: GoInt, flags: Flags)
    ensures ResolveCourse([Itoa(n)], flags)
            == Ok(CourseDownload(flags.downloadType, n, 0, flags.merge, flags.comment, flags.order))
  {
    AtoiItoa(n);
  }

  /** `dl <n> <m>` asks for article m of course n. */
  lemma CourseArticleOfFormattedIds(n: GoInt, m: GoInt, flags: Flags)
    ensures ResolveCourse([Itoa(n), Itoa(m)], flags)
            == Ok(CourseDownload(flags.downloadType, n, m, flags.merge, flags.comment, flags.order))
  {
    AtoiItoa(n);
    AtoiItoa(m);
  }

  /** The course command reads every flag but -a. */
  lemma CourseIgnoresAllFlag(args: seq<string>, flags: Flags, all: bool)
    requires |args| >= 1
    ensures ResolveCourse(args, flags) == ResolveCourse(args, flags.(all := all))
  {
  }

  /** `dlo`'s error precedence: a bad ID is reported before a surplus of arguments. */
  lemma OdobIdErrorFirst(args: seq<string>, flags: Flags)
    requires |args| > 1
    ensures ResolveOdob(args, flags) == (if IsInt(args[0]) then Err(ArgCountError) else Err(OdobIdError))
  {
  }

  /** `dlo <n>` asks for book n. */
  lemma OdobOfFormattedId(n: GoInt, flags: Flags)
    ensures ResolveOdob([Itoa(n)], flags) == Ok(OdobDownload(flags.downloadType, n))
  {
    AtoiItoa(n);
  }

  /** The book command reads only -t. */
  lemma OdobReadsOnlyType(args: seq<string>, flags: Flags, other: Flags)
    requires |args| >= 1
    requires other.downloadType == flags.downloadType
    ensures ResolveOdob(args, flags) == ResolveOdob(args, other)
  {
  }

  /** The ebook command reads only -t and -a. */
  lemma EbookReadsOnlyTypeAndAll(args: seq<string>, flags: Flags, other: Flags)
    requires other.downloadType == flags.downloadType && other.all == flags.all
    ensures ResolveEbook(args, flags) == ResolveEbook(args, other)
  {
  }

  /** `dle <n>` asks for ebook n (or its notes for format 4) by numeric ID. */
  lemma EbookOfFormattedId(n: GoInt, flags: Flags)
    requires !flags.all
    ensures ResolveEbook([Itoa(n)], flags)
            == if IsNotesFormat(flags.downloadType) then Ok(EBookNotesDownload(flags.downloadType, n, ""))
               else Ok(EBookDownloadByID(flags.downloadType, n))
  {
    AtoiItoa(n);
  }

  /**
   * A digit string whose value exceeds the 64-bit range is not an integer to
   * Atoi, so `dle` treats it as an external ID, verbatim.
   */
  lemma EbookOverflowIsEnID(d: string, flags: Flags)
    requires !flags.all
    requires IsDigits(d) && DecimalValue(d) > MaxInt
    ensures ResolveEbook([d], flags)
            == if IsNotesFormat(flags.downloadType) then Ok(EBookNotesDownload(flags.downloadType, 0, d))
               else Ok(EBookDownloadByEnID(flags.downloadType, d))
  {
    AtoiOfDigits(d);
  }

  /**
   * With Go's zero values the notes request cannot tell the numeric ID 0 from
   * the external ID "": `dle 0 -t 4` and `dle "" -t 4` build the same request.
   */
  lemma EbookNotesZeroIdIsEmptyEnID(flags: Flags)
    requires !flags.all && IsNotesFormat(flags.downloadType)
    ensures ResolveEbook(["0"], flags) == ResolveEbook([""], flags)
    ensures ResolveEbook([""], flags) == Ok(EBookNotesDownload(flags.downloadType, 0, ""))
  {
    AtoiOfDigits("0");
  }

  /** An empty argument is not rejected: it becomes the external ID "". */
  lemma EbookEmptyArgIsEnID(flags: Flags)
    requires !flags.all
    ensures ResolveEbook([""], flags)
            == if IsNotesFormat(flags.downloadType) then Ok(EBookNotesDownload(flags.downloadType, 0, ""))
               else Ok(EBookDownloadByEnID(flags.downloadType, ""))
  {
  }

  /** With no flags given: `dl <n>` is an mp3 download of the whole course, `dle` alone is an error. */
  lemma DefaultFlagsBehaviour(n: GoInt)
    ensures ResolveCourse([Itoa(n)], DefaultFlags) == Ok(CourseDownload(1, n, 0, false, false, false))
    ensures ResolveOdob([Itoa(n)], DefaultFlags) == Ok(OdobDownload(1, n))
    ensures ResolveEbook([], DefaultFlags) == Err(MissingEbookArg)
    ensures ResolveEbook([Itoa(n)], DefaultFlags) == Ok(EBookDownloadByID(1, n))
  {
    AtoiItoa(n);
  }

  /** `dl 555 -t 3 -m -c`: one merged Markdown download of course 555 with its comments. */
  lemma CourseExample()
    ensures ResolveCourse(["555"], Flags(3, true, true, false, false))
            == Ok(CourseDownload(3, 555, 0, true, true, false))
  {
    assert NatToDigits(5) == "5";
    assert NatToDigits(55) == "55";
    assert NatToDigits(555) == "555";
    CourseOfFormattedId(555, Flags(3, true, true, false, false));
  }
}
