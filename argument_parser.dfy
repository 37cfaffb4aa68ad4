/**
 * The search-parameter logic of `ArgumentParser`: command-line values, the
 * parameters file's values and date defaults merged into one dictionary.
 *
 * What `argparse`, `json.load` and `datetime.today()` produce is given as
 * input: the parsed command line as a map, the file system as a function from
 * a file name to the file's parsed JSON object, and today's date as text.
 */
module Arguments {
  import opened Wrappers

  /** A Python value as `argparse` or `json.load` produces it. */
  datatype Value =
    | Null
    | Bool(b: bool)
    | Number(n: int)
    | Str(s: string)
    | Array(items: seq<Value>)
    | Object(fields: map<string, Value>)

  /** Python truthiness, as tested by `if value`. */
  predicate Truthy(v: Value) {
    match v
    case Null => false
    case Bool(b) => b
    case Number(n) => n != 0
    case Str(s) => s != ""
    case Array(items) => items != []
    case Object(fields) => fields != map[]
  }

  type Parameters = map<string, Value>

  /** Opening and loading a parameters file: None when `open`, `json.load` or `.items()` raises. */
  type JsonLoader = Value -> Option<Parameters>

  const FILENAME: string := "filename"
  const DATE_FROM: string := "date_from"
  const DATE_TILL: string := "date_till"
  /** `first_tweet_date` */
  const FIRST_TWEET_DATE: string := "2006-03-01"

  /** `dict([[key, value] for key, value in params.items() if value])` */
  function NonEmpty(params: Parameters): (kept: Parameters)
    ensures forall k :: k in kept <==> k in params && Truthy(params[k])
    ensures forall k :: k in kept ==> kept[k] == params[k]
  {
    map k | k in params && Truthy(params[k]) :: params[k]
  }

  /** The dictionary after every `(key, value)` of `file` is assigned into `params`. */
  function Merged(params: Parameters, file: Parameters): (merged: Parameters)
    ensures merged.Keys == params.Keys + file.Keys
    ensures forall k :: k in file ==> merged[k] == file[k]
    ensures forall k :: k in params && k !in file ==> merged[k] == params[k]
  {
    params + file
  }

  /**
   * `fill_in_missing_date`: with a start and no end date the end date becomes
   * today; then, with neither date, the start date becomes the first tweet's date.
   */
  function WithDates(params: Parameters, today: string): (filled: Parameters)
    ensures DATE_FROM in params && DATE_TILL !in params ==> filled == params[DATE_TILL := Str(today)]
    ensures DATE_FROM !in params && DATE_TILL !in params ==> filled == params[DATE_FROM := Str(FIRST_TWEET_DATE)]
    ensures DATE_TILL in params ==> filled == params
  {
    var params := if DATE_FROM in params && DATE_TILL !in params
                  then params[DATE_TILL := Str(today)] else params;
    if DATE_FROM !in params && DATE_TILL !in params
    then params[DATE_FROM := Str(FIRST_TWEET_DATE)] else params
  }

  /**
   * Filling dates only adds date keys that were absent: no existing entry
   * changes, no other key appears, and afterwards at least one date is present.
   */
  lemma WithDatesOnlyAddsDates(params: Parameters, today: string)
    ensures var filled := WithDates(params, today);
            && (forall k :: k in params ==> k in filled && filled[k] == params[k])
            && (forall k :: k in filled && k != DATE_FROM && k != DATE_TILL ==> k in params)
            && (DATE_FROM in filled || DATE_TILL in filled)
  {
  }

  /** With neither date given, one call adds only the start date: the end date stays absent. */
  lemma WithDatesLeavesEndOpen(params: Parameters, today: string)
    requires DATE_FROM !in params && DATE_TILL !in params
    ensures DATE_TILL !in WithDates(params, today)
    ensures WithDates(params, today)[DATE_FROM] == Str(FIRST_TWEET_DATE)
  {
  }

  /** Filling dates is not idempotent: a second call then adds the end date. */
  lemma WithDatesNotIdempotent(params: Parameters, today: string)
    requires DATE_FROM !in params && DATE_TILL !in params
    ensures WithDates(WithDates(params, today), today) != WithDates(params, today)
    ensures WithDates(WithDates(params, today), today)[DATE_TILL] == Str(today)
  {
    var once := WithDates(params, today);
    assert DATE_TILL !in once;
    assert DATE_TILL in WithDates(once, today);
  }

  /** `parse_parameters` as a function; None when reading the parameters file raises. */
  function ParsedParameters(parsedArgs: Parameters, load: JsonLoader, today: string): Option<Parameters> {
    var params := NonEmpty(parsedArgs);
    if FILENAME in params then
      match load(params[FILENAME])
      case None => None
      case Some(file) => Some(WithDates(Merged(params, file) - {FILENAME}, today))
    else
      Some(WithDates(params, today))
  }

  /**
   * The parsed parameters never hold `filename`; every other key of the file
   * has the file's value; every other non-empty command-line value not in the
   * file is kept; and nothing else appears except the date defaults.
   */
  lemma ParsedParametersMeaning(parsedArgs: Parameters, load: JsonLoader, today: string)
    ensures var cli := NonEmpty(parsedArgs);
            var file := if FILENAME in cli && load(cli[FILENAME]).Some? then load(cli[FILENAME]).value else map[];
            var result := ParsedParameters(parsedArgs, load, today);
            && (result.None? <==> FILENAME in cli && load(cli[FILENAME]).None?)
            && (result.Some? ==>
                  && FILENAME !in result.value
                  && (forall k :: k in file && k != FILENAME ==> result.value[k] == file[k])
                  && (forall k :: k in cli && k !in file && k != FILENAME ==> result.value[k] == cli[k])
                  && (forall k :: k in result.value && k != DATE_FROM && k != DATE_TILL ==>
                        k in cli || k in file))
  {
    var cli := NonEmpty(parsedArgs);
    if FILENAME in cli {
      if load(cli[FILENAME]).Some? {
        var file := load(cli[FILENAME]).value;
        WithDatesOnlyAddsDates(Merged(cli, file) - {FILENAME}, today);
      }
    } else {
      WithDatesOnlyAddsDates(cli, today);
    }
  }

  class ArgumentParser {
    var searchParameters: Parameters

    constructor ()
      ensures searchParameters == map[]
    {
      searchParameters := map[];
    }

    /** `parse_cl_arguments` after `argparse` has produced `parsedArgs`. */
    method ParseClArguments(parsedArgs: Parameters)
      modifies this
      ensures searchParameters == NonEmpty(parsedArgs)
    {
      searchParameters := parsedArgs;
      searchParameters := map key | key in searchParameters && Truthy(searchParameters[key]) :: searchParameters[key];
    }

    /**
     * `read_search_parameters_from_json(filename)`: every entry of the file is
     * assigned into the parameters; nothing changes when the file cannot be read.
     */
    method ReadSearchParametersFromJson(filename: Value, load: JsonLoader) returns (ok: bool)
      modifies this
      ensures ok == load(filename).Some?
      ensures ok ==> searchParameters == Merged(old(searchParameters), load(filename).value)
      ensures !ok ==> searchParameters == old(searchParameters)
    {
      var loaded := load(filename);
      if loaded.None? {
        return false;
      }
      var theParameters := loaded.value;
      var remaining := theParameters.Keys;
      while remaining != {}
        invariant remaining <= theParameters.Keys
        invariant forall k :: k in searchParameters <==>
                    k in old(searchParameters) || (k in theParameters && k !in remaining)
        invariant forall k :: k in searchParameters ==>
                    searchParameters[k] == if k in theParameters && k !in remaining
                                           then theParameters[k] else old(searchParameters)[k]
        decreases remaining
      {
        var key :| key in remaining;
        searchParameters := searchParameters[key := theParameters[key]];
        remaining := remaining - {key};
      }
      ok := true;
    }

    /** `fill_in_missing_date`, with `today` standing for `datetime.today().strftime('%Y-%m-%d')`. */
    method FillInMissingDate(today: string)
      modifies this
      ensures searchParameters == WithDates(old(searchParameters), today)
    {
      if DATE_FROM in searchParameters && DATE_TILL !in searchParameters {
        searchParameters := searchParameters[DATE_TILL := Str(today)];
      }
      if DATE_FROM !in searchParameters && DATE_TILL !in searchParameters {
        searchParameters := searchParameters[DATE_FROM := Str(FIRST_TWEET_DATE)];
      }
    }

    /**
     * `parse_parameters`. When the parameters file cannot be read the source
     * raises, leaving the filtered command-line values in place.
     */
    method ParseParameters(parsedArgs: Parameters, load: JsonLoader, today: string) returns (ok: bool)
      modifies this
      ensures ok <==> ParsedParameters(parsedArgs, load, today).Some?
      ensures ok ==> searchParameters == ParsedParameters(parsedArgs, load, today).value
      ensures !ok ==> searchParameters == NonEmpty(parsedArgs)
    {
      ParseClArguments(parsedArgs);
      if FILENAME in searchParameters {
        ok := ReadSearchParametersFromJson(searchParameters[FILENAME], load);
        if !ok {
          return;
        }
        searchParameters := searchParameters - {FILENAME};
      }
      FillInMissingDate(today);
      ok := true;
    }

    /** `get_parameters` */
    method GetParameters(parsedArgs: Parameters, load: JsonLoader, today: string) returns (result: Option<Parameters>)
      modifies this
      ensures result == ParsedParameters(parsedArgs, load, today)
      ensures result.Some? ==> searchParameters == result.value
      ensures result.None? ==> searchParameters == NonEmpty(parsedArgs)
    {
      var ok := ParseParameters(parsedArgs, load, today);
      result := if ok then Some(searchParameters) else None;
    }
  }
}
