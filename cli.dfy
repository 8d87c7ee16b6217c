/**
 * The command-line front end (src/main.py): rendering a joke, the three
 * subcommand handlers and the entry point. Printing is modelled by
 * returning what would be written: the lines sent to standard output, the
 * lines sent to standard error, and how the process ends.
 */
module Cli {
  import opened Wrappers
  import opened PyJson
  import opened Api

  /** One `print` to standard output: a line of text, the JSON dump of a
      value (`json.dumps` is not modelled), or the parser's help text. */
  datatype Line = Text(s: string) | Dump(v: Json) | Help

  /** The parsed command line. A missing `--category` is None. */
  datatype Command =
    | Random(category: Option<string>)
    | ListCategories
    | Search(query: string, limit: int)

  datatype Args = Args(command: Command, verbose: bool, json: bool)

  /** How a handler or the program ends: with an exit code, or with an
      exception that nothing caught. */
  datatype Status = Exit(code: int) | Raised(fault: Fault)

  /** One run: the request handed to the transport (None when no request
      was made), standard output, standard error and the ending. */
  datatype Run = Run(sent: Option<Request>, out: seq<Line>, err: seq<string>, status: Status)

  /** Output written so far, and the exception that stopped the writing. */
  datatype Emitted = Emitted(out: seq<Line>, fault: Option<Fault>)

  const NoJoke := "(no joke returned)"
  const NoResults := "No jokes found."
  const EmptyQueryMessage := "Error: search query cannot be empty"
  const RandomFailurePrefix := "Error: failed to fetch random joke - "
  const CategoriesFailurePrefix := "Error: failed to fetch categories - "
  const SearchFailurePrefix := "Error: failed to search jokes - "

  function Finish(fault: Option<Fault>): Status
  {
    match fault
    case None => Exit(0)
    case Some(f) => Raised(f)
  }

  /** The line that shows a joke's text. */
  function ValueLine(j: seq<Member>): Line
  {
    Text(Display(Get(j, "value", JStr(NoJoke))))
  }

  /** `print_joke`. JSON wins over verbose and prints the dump alone; plain
      mode prints the joke's text alone; verbose mode prints the id line, the
      url line, a categories line only for truthy categories, a blank line,
      and the joke's text last. Joining categories that are not strings is
      a TypeError, raised before anything is printed. */
  function PrintJoke(j: seq<Member>, verbose: bool, asJson: bool): (e: Emitted)
    ensures asJson ==> e == Emitted([Dump(JObj(j))], None)
    ensures !asJson && !verbose ==> e == Emitted([ValueLine(j)], None)
    ensures !asJson && verbose ==>
      var cats := Get(j, "categories", JNull);
      && (e.fault.Some? <==> Truthy(cats) && Join(", ", cats).Err?)
      && (e.fault.Some? ==> e.out == [] && e.fault == Some(TypeError))
      && (e.fault.None? ==>
            && |e.out| == (if Truthy(cats) then 5 else 4)
            && e.out[0] == Text("ID: " + Display(Get(j, "id", JNull)))
            && e.out[1] == Text("URL: " + Display(Get(j, "url", JNull)))
            && (Truthy(cats) ==> e.out[2] == Text("Categories: " + Join(", ", cats).value))
            && e.out[|e.out| - 2..] == [Text("")] + PrintJoke(j, false, false).out)
  {
    if asJson then Emitted([Dump(JObj(j))], None)
    else if !verbose then Emitted([ValueLine(j)], None)
    else
      var header := [Text("ID: " + Display(Get(j, "id", JNull))), Text("URL: " + Display(Get(j, "url", JNull)))];
      var cats := Get(j, "categories", JNull);
      if !Truthy(cats) then Emitted(header + [Text(""), ValueLine(j)], None)
      else
        match Join(", ", cats)
        case Err(f) => Emitted([], Some(f))
        case Ok(joined) => Emitted(header + [Text("Categories: " + joined), Text(""), ValueLine(j)], None)
  }

  /** `handle_random`: one request, then the joke, or exit code 2 with the
      error on standard error and nothing on standard output. */
  function HandleRandom(category: Option<string>, verbose: bool, asJson: bool, o: Outcome, defaultTimeout: int): (run: Run)
    ensures run.sent == Some(RandomJokeRequest(category, None, defaultTimeout))
    ensures run.status == Exit(2) <==> RandomJoke(o).Err?
    ensures run.status == Exit(2) ==> run.out == [] && run.err == [RandomFailurePrefix + RandomJoke(o).error.Text()]
    ensures run.status != Exit(2) ==> run.err == [] && (run.status == Exit(0) || run.status == Raised(TypeError))
    ensures run.status == Exit(0) ==> run.out == PrintJoke(o.body.members, verbose, asJson).out
    ensures RandomJoke(o).Ok? ==> run.status == Finish(PrintJoke(o.body.members, verbose, asJson).fault)
    ensures run.status.Raised? ==> run.out == []
    ensures Help !in run.out
  {
    var sent := Some(RandomJokeRequest(category, None, defaultTimeout));
    match RandomJoke(o)
    case Err(e) => Run(sent, [], [RandomFailurePrefix + e.Text()], Exit(2))
    case Ok(joke) =>
      var e := PrintJoke(joke.members, verbose, asJson);
      Run(sent, e.out, [], Finish(e.fault))
  }

  /** The plain listing of categories: one line per item, in the order
      received. */
  function CategoryLines(cats: seq<Json>): (lines: seq<Line>)
    ensures |lines| == |cats|
    ensures forall i :: 0 <= i < |cats| ==> lines[i] == Text(Display(cats[i]))
  {
    if cats == [] then [] else [Text(Display(cats[0]))] + CategoryLines(cats[1..])
  }

  /** The loop that prints each category on its own line. */
  method PrintCategories(cats: seq<Json>) returns (out: seq<Line>)
    ensures out == CategoryLines(cats)
  {
    out := [];
    var i := 0;
    while i < |cats|
      invariant 0 <= i <= |cats|
      invariant |out| == i
      invariant forall k :: 0 <= k < i ==> out[k] == Text(Display(cats[k]))
    {
      out := out + [Text(Display(cats[i]))];
      i := i + 1;
    }
  }

  /** `handle_categories`: the dump in JSON mode, otherwise one line per
      category; a failed request gives exit code 2. */
  function HandleCategories(asJson: bool, o: Outcome, defaultTimeout: int): (run: Run)
    ensures run.sent == Some(CategoriesRequest(None, defaultTimeout))
    ensures run.status == Exit(2) <==> !o.Decoded?
    ensures !o.Decoded? ==> run.out == [] && run.err == [CategoriesFailurePrefix + o.detail]
    ensures o.Decoded? ==> run.err == [] && (run.status == Exit(0) || run.status == Raised(TypeError))
    ensures o.Decoded? && asJson ==> run.out == [Dump(o.body)] && run.status == Exit(0)
    ensures o.Decoded? && !asJson && Iterate(o.body).Ok? ==>
      run.out == CategoryLines(Iterate(o.body).value) && run.status == Exit(0)
    ensures o.Decoded? && !asJson && o.body.JArr? ==> run.out == CategoryLines(o.body.items)
    ensures o.Decoded? && !asJson && Iterate(o.body).Err? ==> run.status == Raised(TypeError)
    ensures run.status.Raised? ==> run.out == []
    ensures Help !in run.out
  {
    var sent := Some(CategoriesRequest(None, defaultTimeout));
    match Categories(o)
    case Err(e) => Run(sent, [], [CategoriesFailurePrefix + e.Text()], Exit(2))
    case Ok(cats) =>
      if asJson then Run(sent, [Dump(cats)], [], Exit(0))
      else
        match Iterate(cats)
        case Err(f) => Run(sent, [], [], Raised(f))
        case Ok(xs) =>
          var lines := CategoryLines(xs);
          assert forall i :: 0 <= i < |lines| ==> lines[i].Text?;
          Run(sent, lines, [], Exit(0))
  }

  /** The numbered line of the k-th search result. */
  function HeadLine(item: seq<Member>, k: nat): Line
  {
    Text(Decimal(k) + ". " + Display(Get(item, "value", JNull)))
  }

  /** The lines of the k-th search result: "k. <value>", and in verbose mode
      an id line and, for truthy categories, a categories line. An item that
      is not a dict is an AttributeError before anything is printed;
      categories that cannot be joined are a TypeError after the id line. */
  function ItemLines(item: Json, k: nat, verbose: bool): (e: Emitted)
    ensures !item.JObj? ==> e == Emitted([], Some(AttributeError))
    ensures item.JObj? && !verbose ==> e == Emitted([HeadLine(item.members, k)], None)
  {
    if !item.JObj? then Emitted([], Some(AttributeError))
    else
      var d := item.members;
      var head := HeadLine(d, k);
      if !verbose then Emitted([head], None)
      else
        var idLine := Text("   id: " + Display(Get(d, "id", JNull)));
        var cats := Get(d, "categories", JNull);
        if !Truthy(cats) then Emitted([head, idLine], None)
        else
          match Join(", ", cats)
          case Err(f) => Emitted([head, idLine], Some(f))
          case Ok(joined) => Emitted([head, idLine, Text("   categories: " + joined)], None)
  }

  /** In verbose mode the k-th result shows its numbered line and its id
      line, then a categories line only for truthy categories that join;
      categories that do not join end the listing with a TypeError after the
      id line. */
  lemma VerboseItemLines(item: Json, k: nat)
    requires item.JObj?
    ensures var e := ItemLines(item, k, true);
      var cats := Get(item.members, "categories", JNull);
      && |e.out| >= 2
      && e.out[..2] == [HeadLine(item.members, k), Text("   id: " + Display(Get(item.members, "id", JNull)))]
      && (e.fault.Some? <==> Truthy(cats) && Join(", ", cats).Err?)
      && (e.fault.Some? ==> e.fault == Some(TypeError))
      && (|e.out| == 3 <==> e.fault.None? && Truthy(cats))
      && |e.out| <= 3
      && (|e.out| == 3 ==> e.out[2] == Text("   categories: " + Join(", ", cats).value))
  {
  }

  /** Numbering the items from `first` and printing each with `show`: the
      lines of each item in turn, stopping at the first exception. */
  function Enumerate(items: seq<Json>, first: nat, show: (Json, nat) -> Emitted): Emitted
    decreases |items|
  {
    if items == [] then Emitted([], None)
    else
      var e := show(items[0], first);
      if e.fault.Some? then e
      else
        var rest := Enumerate(items[1..], first + 1, show);
        Emitted(e.out + rest.out, rest.fault)
  }

  /** How the search listing shows one result. */
  function ItemPrinter(verbose: bool): (Json, nat) -> Emitted
  {
    (item: Json, k: nat) => ItemLines(item, k, verbose)
  }

  /** The search listing: every result shown by `ItemLines`. */
  function Listing(items: seq<Json>, first: nat, verbose: bool): Emitted
  {
    Enumerate(items, first, ItemPrinter(verbose))
  }

  /** The listing loop itself, numbering from 1; with `ItemPrinter(verbose)`
      as `show` it prints `Listing(items, 1, verbose)`. */
  method PrintResults(items: seq<Json>, show: (Json, nat) -> Emitted) returns (out: seq<Line>, fault: Option<Fault>)
    ensures Emitted(out, fault) == Enumerate(items, 1, show)
  {
    out, fault := [], None;
    var i := 0;
    while i < |items|
      invariant 0 <= i <= |items|
      invariant Enumerate(items, 1, show) ==
        Emitted(out + Enumerate(items[i..], i + 1, show).out, Enumerate(items[i..], i + 1, show).fault)
    {
      var e := show(items[i], i + 1);
      assert items[i..][0] == items[i] && items[i..][1..] == items[i + 1..];
      out := out + e.out;
      if e.fault.Some? {
        fault := e.fault;
        return;
      }
      i := i + 1;
    }
  }

  /** When every item shows as exactly one line and no exception, the
      enumeration is those lines in item order. */
  lemma {:induction false} EnumerateSingles(items: seq<Json>, first: nat, show: (Json, nat) -> Emitted, lines: seq<Line>)
    requires |lines| == |items|
    requires forall i :: 0 <= i < |items| ==> show(items[i], first + i) == Emitted([lines[i]], None)
    ensures Enumerate(items, first, show) == Emitted(lines, None)
    decreases |items|
  {
    if items != [] {
      forall i | 0 <= i < |items[1..]|
        ensures show(items[1..][i], first + 1 + i) == Emitted([lines[1..][i]], None)
      {
        assert items[1..][i] == items[i + 1] && lines[1..][i] == lines[i + 1];
      }
      EnumerateSingles(items[1..], first + 1, show, lines[1..]);
      assert show(items[0], first) == Emitted([lines[0]], None);
      assert lines == [lines[0]] + lines[1..];
    }
  }

  /** Without verbose, and with every item a dict, the k-th line is the
      numbered text of the k-th result. */
  lemma PlainListing(items: seq<Json>, first: nat)
    requires forall i :: 0 <= i < |items| ==> items[i].JObj?
    ensures Listing(items, first, false).fault == None
    ensures |Listing(items, first, false).out| == |items|
    ensures forall i :: 0 <= i < |items| ==>
      Listing(items, first, false).out[i] == HeadLine(items[i].members, first + i)
  {
    var lines := seq(|items|, i requires 0 <= i < |items| => HeadLine(items[i].members, first + i));
    var show := ItemPrinter(false);
    forall i | 0 <= i < |items| ensures show(items[i], first + i) == Emitted([lines[i]], None) {
      assert show(items[i], first + i) == ItemLines(items[i], first + i, false);
    }
    EnumerateSingles(items, first, show, lines);
  }

  /** The enumeration ends with an exception exactly when one of the items'
      lines does. */
  lemma {:induction false} EnumerateFaultFree(items: seq<Json>, first: nat, show: (Json, nat) -> Emitted)
    ensures Enumerate(items, first, show).fault.None? <==>
      forall j :: 0 <= j < |items| ==> show(items[j], first + j).fault.None?
    decreases |items|
  {
    if items != [] {
      var tail := items[1..];
      EnumerateFaultFree(tail, first + 1, show);
      if show(items[0], first).fault.None? {
        if forall j :: 0 <= j < |tail| ==> show(tail[j], first + 1 + j).fault.None? {
          forall j | 0 <= j < |items| ensures show(items[j], first + j).fault.None? {
            if j > 0 { assert tail[j - 1] == items[j]; }
          }
        } else {
          var j :| 0 <= j < |tail| && show(tail[j], first + 1 + j).fault.Some?;
          assert items[j + 1] == tail[j];
        }
      }
    }
  }

  /** Enumerating two runs of items, the first without exceptions, is
      enumerating the first and then the second, numbered on from where the
      first stopped. */
  lemma {:induction false} EnumerateAppend(a: seq<Json>, b: seq<Json>, first: nat, show: (Json, nat) -> Emitted)
    requires Enumerate(a, first, show).fault.None?
    ensures Enumerate(a + b, first, show) ==
      Emitted(Enumerate(a, first, show).out + Enumerate(b, first + |a|, show).out,
              Enumerate(b, first + |a|, show).fault)
    decreases |a|
  {
    if a == [] {
      assert a + b == b;
    } else {
      assert (a + b)[0] == a[0] && (a + b)[1..] == a[1..] + b;
      EnumerateAppend(a[1..], b, first + 1, show);
    }
  }

  /** When the j-th item is the first whose lines end with an exception, the
      output holds every earlier item's lines and the part of the j-th
      item's lines printed before the exception, which is the one raised. */
  lemma EnumerateStopsAt(items: seq<Json>, first: nat, show: (Json, nat) -> Emitted, j: nat)
    requires j < |items|
    requires forall i :: 0 <= i < j ==> show(items[i], first + i).fault.None?
    requires show(items[j], first + j).fault.Some?
    ensures Enumerate(items, first, show) ==
      Emitted(Enumerate(items[..j], first, show).out + show(items[j], first + j).out,
              show(items[j], first + j).fault)
  {
    var before := items[..j];
    forall i | 0 <= i < j ensures show(before[i], first + i).fault.None? {
      assert before[i] == items[i];
    }
    EnumerateFaultFree(before, first, show);
    assert items == before + items[j..];
    EnumerateAppend(before, items[j..], first, show);
    assert items[j..][0] == items[j];
  }

  /** A search listing cut short by an exception (an item that is not a
      dict, or categories that do not join) keeps the lines of the earlier
      results and the part of the failing result's lines printed before the
      exception. */
  lemma ListingStopsAt(items: seq<Json>, first: nat, verbose: bool, j: nat)
    requires j < |items|
    requires forall i :: 0 <= i < j ==> ItemLines(items[i], first + i, verbose).fault.None?
    requires ItemLines(items[j], first + j, verbose).fault.Some?
    ensures Listing(items, first, verbose) ==
      Emitted(Listing(items[..j], first, verbose).out + ItemLines(items[j], first + j, verbose).out,
              ItemLines(items[j], first + j, verbose).fault)
  {
    EnumerateStopsAt(items, first, ItemPrinter(verbose), j);
  }

  /** The listing never prints the help text. */
  lemma {:induction false} ListingIsText(items: seq<Json>, first: nat, verbose: bool)
    ensures Help !in Listing(items, first, verbose).out
    decreases |items|
  {
    if items != [] {
      ListingIsText(items[1..], first + 1, verbose);
    }
  }

  /** The "result" member of a dict response (None when it is missing), and
      None for a response that is not a dict. */
  function Results(data: Json): Json
  {
    if data.JObj? then Get(data.members, "result", JNull) else JNull
  }

  /** `handle_search`: an empty or blank query is refused before any
      request; a failed request gives exit code 2; JSON mode dumps the whole
      trimmed response whatever it holds; no results print "No jokes found.";
      otherwise the numbered listing. */
  function HandleSearch(query: string, limit: int, verbose: bool, asJson: bool, o: Outcome, defaultTimeout: int): (run: Run)
    ensures Blank(query) ==> run == Run(None, [], [EmptyQueryMessage], Exit(2))
    ensures !Blank(query) ==> run.sent == Some(SearchRequest(query, None, defaultTimeout))
    ensures !Blank(query) ==> (run.status == Exit(2) <==> !o.Decoded?)
    ensures !Blank(query) && !o.Decoded? ==> run.out == [] && run.err == [SearchFailurePrefix + o.detail]
    ensures run.status != Exit(2) ==> run.err == []
    ensures run.status.Exit? ==> run.status.code in {0, 2}
    ensures !Blank(query) && o.Decoded? && asJson ==>
      run.out == [Dump(TrimResult(o.body, limit))] && run.status == Exit(0)
    ensures !Blank(query) && o.Decoded? && !asJson && !Truthy(Results(TrimResult(o.body, limit))) ==>
      run.out == [Text(NoResults)] && run.status == Exit(0)
    ensures !Blank(query) && o.Decoded? && !asJson && Truthy(Results(TrimResult(o.body, limit))) ==>
      var results := Results(TrimResult(o.body, limit));
      && (Iterate(results).Err? ==> run.out == [] && run.status == Raised(TypeError))
      && (Iterate(results).Ok? ==>
            var e := Listing(Iterate(results).value, 1, verbose);
            && run.out == e.out
            && (run.status == Exit(0) <==> e.fault.None?)
            && (e.fault.Some? ==> run.status == Raised(e.fault.value)))
    ensures Help !in run.out
  {
    if Blank(query) then Run(None, [], [EmptyQueryMessage], Exit(2))
    else
      var sent := Some(SearchRequest(query, None, defaultTimeout));
      match SearchJokes(o, limit)
      case Err(e) => Run(sent, [], [SearchFailurePrefix + e.Text()], Exit(2))
      case Ok(data) =>
        var results := Results(data);
        if asJson then Run(sent, [Dump(data)], [], Exit(0))
        else if !Truthy(results) then Run(sent, [Text(NoResults)], [], Exit(0))
        else
          match Iterate(results)
          case Err(f) => Run(sent, [], [], Raised(f))
          case Ok(items) =>
            var e := Listing(items, 1, verbose);
            ListingIsText(items, 1, verbose);
            Run(sent, e.out, [], Finish(e.fault))
  }

  /** A plain search whose trimmed "result" is a non-empty list of dicts
      prints one line per result, the k-th reading "k. <value>", in result
      order, and ends with exit code 0. */
  lemma SearchListsResults(query: string, limit: int, o: Outcome, defaultTimeout: int)
    requires !Blank(query) && o.Decoded?
    requires ResultList(TrimResult(o.body, limit)).Some?
    requires var items := ResultList(TrimResult(o.body, limit)).value;
      items != [] && forall i :: 0 <= i < |items| ==> items[i].JObj?
    ensures var items := ResultList(TrimResult(o.body, limit)).value;
      var run := HandleSearch(query, limit, false, false, o, defaultTimeout);
      && run.status == Exit(0)
      && |run.out| == |items|
      && forall k :: 0 <= k < |items| ==> run.out[k] == HeadLine(items[k].members, k + 1)
  {
    var items := ResultList(TrimResult(o.body, limit)).value;
    var results := Results(TrimResult(o.body, limit));
    assert results == JArr(items) && Truthy(results) && Iterate(results) == Ok(items);
    PlainListing(items, 1);
  }

  /** The search query is refused before any request. */
  predicate EmptyQuery(c: Command)
  {
    c.Search? && Blank(c.query)
  }

  /** The command's one API call raised. */
  predicate ApiFails(c: Command, o: Outcome)
  {
    match c
    case Random(_) => RandomJoke(o).Err?
    case ListCategories => Categories(o).Err?
    case Search(_, limit) => SearchJokes(o, limit).Err?
  }

  /** The handler the subcommand selects. */
  function Dispatch(args: Args, o: Outcome, defaultTimeout: int): (run: Run)
    ensures run.status.Exit? ==> run.status.code in {0, 2}
    ensures run.status == Exit(2) ==> run.out == [] && |run.err| == 1
    ensures run.status != Exit(2) ==> run.err == []
    ensures Help !in run.out
    ensures run.status.Raised? && !args.command.Search? ==> run.status.fault == TypeError
    ensures run.status == Exit(2) <==> EmptyQuery(args.command) || ApiFails(args.command, o)
    ensures run.sent == None <==> EmptyQuery(args.command)
    ensures args.json && run.status == Exit(0) ==> |run.out| == 1 && run.out[0].Dump?
    ensures args.json ==> run.status.Exit?
    ensures args.command.Random? ==>
      run == HandleRandom(args.command.category, args.verbose, args.json, o, defaultTimeout)
    ensures args.command.ListCategories? ==> run == HandleCategories(args.json, o, defaultTimeout)
    ensures args.command.Search? ==>
      run == HandleSearch(args.command.query, args.command.limit, args.verbose, args.json, o, defaultTimeout)
  {
    match args.command
    case Random(category) => HandleRandom(category, args.verbose, args.json, o, defaultTimeout)
    case ListCategories => HandleCategories(args.json, o, defaultTimeout)
    case Search(query, limit) => HandleSearch(query, limit, args.verbose, args.json, o, defaultTimeout)
  }

  /** `main`: an AttributeError from the handler prints the help text and
      ends with exit code 1; any other exception goes on up. Exit code 2
      means exactly a refused query or a failed API call, with one error
      line and nothing on standard output; JSON output is one dump. */
  function Main(args: Args, o: Outcome, defaultTimeout: int): (run: Run)
    ensures run.status.Exit? ==> run.status.code in {0, 1, 2}
    ensures run.status.Raised? ==> run.status.fault == TypeError
    ensures run.status == Exit(2) <==> EmptyQuery(args.command) || ApiFails(args.command, o)
    ensures run.status == Exit(2) ==> run.out == [] && |run.err| == 1
    ensures run.status != Exit(2) ==> run.err == []
    ensures run.status == Exit(1) <==> Dispatch(args, o, defaultTimeout).status == Raised(AttributeError)
    ensures run.status == Exit(1) ==> run.out == Dispatch(args, o, defaultTimeout).out + [Help]
    ensures run.sent == Dispatch(args, o, defaultTimeout).sent && run.err == Dispatch(args, o, defaultTimeout).err
    ensures run.status != Exit(1) ==> run == Dispatch(args, o, defaultTimeout)
    ensures run.status == Exit(1) <==> Help in run.out
    ensures run.status == Exit(1) ==> run.out[|run.out| - 1] == Help
    ensures run.sent == None <==> EmptyQuery(args.command)
    ensures args.json && run.status == Exit(0) ==> |run.out| == 1 && run.out[0].Dump?
  {
    var run := Dispatch(args, o, defaultTimeout);
    assert run.status.Raised? ==> run.status.fault == TypeError || run.status.fault == AttributeError;
    assert Help !in run.out;
    if run.status == Raised(AttributeError) then
      var out := run.out + [Help];
      assert Help in out && out[|out| - 1] == Help;
      run.(out := out, status := Exit(1))
    else run
  }

  /** A plain search whose j-th result is the first to raise, and is not a
      dict, prints the earlier results' lines and ends with an
      AttributeError. */
  lemma SearchNonDictRaises(query: string, limit: int, verbose: bool, o: Outcome, defaultTimeout: int, j: nat)
    requires !Blank(query) && o.Decoded?
    requires Truthy(Results(TrimResult(o.body, limit))) && Iterate(Results(TrimResult(o.body, limit))).Ok?
    requires var items := Iterate(Results(TrimResult(o.body, limit))).value;
      && j < |items| && !items[j].JObj?
      && forall i :: 0 <= i < j ==> ItemLines(items[i], 1 + i, verbose).fault.None?
    ensures var items := Iterate(Results(TrimResult(o.body, limit))).value;
      var run := HandleSearch(query, limit, verbose, false, o, defaultTimeout);
      && run.status == Raised(AttributeError)
      && run.out == Listing(items[..j], 1, verbose).out
      && run.err == []
  {
    var items := Iterate(Results(TrimResult(o.body, limit))).value;
    ListingStopsAt(items, 1, verbose, j);
    assert ItemLines(items[j], 1 + j, verbose) == Emitted([], Some(AttributeError));
  }

  /** The same search run through `main`: the earlier results' lines, then
      the help text, and exit code 1. */
  lemma SearchNonDictShowsHelp(query: string, limit: int, verbose: bool, o: Outcome, defaultTimeout: int, j: nat)
    requires !Blank(query) && o.Decoded?
    requires Truthy(Results(TrimResult(o.body, limit))) && Iterate(Results(TrimResult(o.body, limit))).Ok?
    requires var items := Iterate(Results(TrimResult(o.body, limit))).value;
      && j < |items| && !items[j].JObj?
      && forall i :: 0 <= i < j ==> ItemLines(items[i], 1 + i, verbose).fault.None?
    ensures var items := Iterate(Results(TrimResult(o.body, limit))).value;
      var run := Main(Args(Search(query, limit), verbose, false), o, defaultTimeout);
      && run.status == Exit(1)
      && run.out == Listing(items[..j], 1, verbose).out + [Help]
      && run.err == []
  {
    SearchNonDictRaises(query, limit, verbose, o, defaultTimeout, j);
    assert Dispatch(Args(Search(query, limit), verbose, false), o, defaultTimeout)
      == HandleSearch(query, limit, verbose, false, o, defaultTimeout);
  }

  /** With `--json` the verbose flag changes nothing. */
  lemma JsonOverridesVerbose(args: Args, o: Outcome, defaultTimeout: int)
    requires args.json
    ensures Main(args, o, defaultTimeout) == Main(args.(verbose := !args.verbose), o, defaultTimeout)
  {
    assert Dispatch(args, o, defaultTimeout) == Dispatch(args.(verbose := !args.verbose), o, defaultTimeout);
  }

  /** A refused query makes no request, so the outcome plays no part. */
  lemma EmptyQueryMakesNoRequest(args: Args, o1: Outcome, o2: Outcome, defaultTimeout: int)
    requires EmptyQuery(args.command)
    ensures Main(args, o1, defaultTimeout) == Main(args, o2, defaultTimeout)
    ensures Main(args, o1, defaultTimeout) == Run(None, [], [EmptyQueryMessage], Exit(2))
  {
  }

  /** A random joke whose dict holds "a funny joke" prints that text alone,
      sends no category, and ends with exit code 0. */
  lemma RandomJokeScenario(defaultTimeout: int)
    ensures var joke := JObj([Member("id", JStr("1")), Member("value", JStr("a funny joke"))]);
      Main(Args(Random(None), false, false), Decoded(joke), defaultTimeout)
        == Run(Some(Request(RandomPath, map[], defaultTimeout)), [Text("a funny joke")], [], Exit(0))
  {
  }
}
