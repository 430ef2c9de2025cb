/** `CubeCobra`: the cube's card list, downloaded once as CSV and searched by name, and
    the collector-number clean-up done on the records it hands out. */
module Catalog {
  import opened Results
  import opened Cube
  import opened UrlFetcher

  const CatalogUrl := "https://cubecobra.com/cube/download/csv/5ec423906c26474a6ce5eb85?primary=Color%20Category&secondary=Types-Multicolor&tertiary=Mana%20Value&quaternary=Alphabetical&showother=false"

  /** Ruby's `\d`: an ASCII digit. */
  predicate IsDigit(c: char)
  {
    '0' <= c <= '9'
  }

  predicate AllDigits(s: string)
  {
    forall i :: 0 <= i < |s| ==> IsDigit(s[i])
  }

  /** `gsub(/\D/, '')`: the digits of `s`, in order. */
  function KeepDigits(s: string): (r: string)
    ensures |r| <= |s|
    ensures AllDigits(r)
  {
    if s == [] then ""
    else (if IsDigit(s[0]) then [s[0]] else "") + KeepDigits(s[1..])
  }

  /** Every digit stays as often as it occurred; nothing else survives. */
  lemma {:induction false} KeepDigitsCounts(s: string)
    ensures forall c :: multiset(KeepDigits(s))[c] == if IsDigit(c) then multiset(s)[c] else 0
  {
    if s != [] {
      KeepDigitsCounts(s[1..]);
      assert s == [s[0]] + s[1..];
    }
  }

  lemma {:induction false} KeepDigitsAppend(a: string, b: string)
    ensures KeepDigits(a + b) == KeepDigits(a) + KeepDigits(b)
  {
    if a == [] {
      assert a + b == b;
    } else {
      var ab := a + b;
      assert ab[0] == a[0] && ab[1..] == a[1..] + b;
      KeepDigitsAppend(a[1..], b);
      var head := if IsDigit(a[0]) then [a[0]] else "";
      assert KeepDigits(ab) == head + KeepDigits(a[1..] + b);
      assert KeepDigits(a) == head + KeepDigits(a[1..]);
    }
  }

  /** A string of digits is left as it is. */
  lemma {:induction false} KeepDigitsOfDigits(s: string)
    requires AllDigits(s)
    ensures KeepDigits(s) == s
  {
    if s != [] {
      KeepDigitsOfDigits(s[1..]);
      assert s == [s[0]] + s[1..];
    }
  }

  /** A string without digits, such as a set-code prefix, vanishes. */
  lemma {:induction false} KeepDigitsOfNonDigits(s: string)
    requires forall i :: 0 <= i < |s| ==> !IsDigit(s[i])
    ensures KeepDigits(s) == ""
  {
    if s != [] {
      KeepDigitsOfNonDigits(s[1..]);
    }
  }

  /** Normalising a second time changes nothing. */
  lemma KeepDigitsIdempotent(s: string)
    ensures KeepDigits(KeepDigits(s)) == KeepDigits(s)
  {
    KeepDigitsOfDigits(KeepDigits(s));
  }

  /** A Plist collector number such as "XLN-1" keeps only its number. */
  lemma KeepDigitsExamples()
    ensures KeepDigits("XLN-1") == "1"
    ensures KeepDigits("42") == "42"
    ensures KeepDigits("XYZ-7") == "7"
  {
    KeepDigitsOfNonDigits("XLN-");
    KeepDigitsAppend("XLN-", "1");
    KeepDigitsOfNonDigits("XYZ-");
    KeepDigitsAppend("XYZ-", "7");
    KeepDigitsOfDigits("42");
  }

  /** `cards.find { |card| card['name'] == name }`: the position of the first record
      with that exact name, if any. */
  function FirstByName(records: seq<CardRecord>, name: string): (r: Option<nat>)
    ensures r.Some? ==> r.value < |records| && records[r.value].name == name
                        && forall j :: 0 <= j < r.value ==> records[j].name != name
    ensures r.None? <==> forall j :: 0 <= j < |records| ==> records[j].name != name
  {
    if records == [] then None
    else if records[0].name == name then Some(0)
    else match FirstByName(records[1..], name)
      case None => None
      case Some(i) => Some(i + 1)
  }

  /** The parsed card list as the network (through the cache) yields it. */
  function CatalogCards(view: map<string, string>, codecs: Codecs): (r: Result<seq<CardRecord>>)
    ensures r.Success? <==> CatalogUrl in view
    ensures r.Success? ==> r.value == codecs.parseCsv(view[CatalogUrl])
    ensures r.Failure? ==> r.error == FetchError(CatalogUrl)
  {
    match Remote(view, CatalogUrl)
    case Failure(e) => Failure(e)
    case Success(csv) => Success(codecs.parseCsv(csv))
  }

  /** `card_by_name(name)`: the position of the first record named `name`, or
      `CardNotFoundError`, or the download's own failure. */
  function LookUp(view: map<string, string>, codecs: Codecs, name: string): (r: Result<nat>)
    ensures r.Success? ==> CatalogCards(view, codecs).Success?
                           && FirstByName(CatalogCards(view, codecs).value, name) == Some(r.value)
    ensures r.Failure? ==> r.error == FetchError(CatalogUrl) || r.error == CubeCobraCardNotFound(name)
    ensures r == Failure(CubeCobraCardNotFound(name)) <==>
              CatalogCards(view, codecs).Success? && FirstByName(CatalogCards(view, codecs).value, name).None?
  {
    match CatalogCards(view, codecs)
    case Failure(e) => Failure(e)
    case Success(records) =>
      match FirstByName(records, name)
      case None => Failure(CubeCobraCardNotFound(name))
      case Some(i) => Success(i)
  }

  /** `memo` is `parsed` after some of its collector numbers were normalised in place. */
  predicate NormalisedFrom(memo: seq<CardRecord>, parsed: seq<CardRecord>)
  {
    && |memo| == |parsed|
    && forall i :: 0 <= i < |memo| ==>
         && memo[i].name == parsed[i].name
         && memo[i].setCode == parsed[i].setCode
         && (memo[i].collectorNumber == parsed[i].collectorNumber
             || memo[i].collectorNumber == KeepDigits(parsed[i].collectorNumber))
  }

  /** Normalising records in place never changes what a later lookup finds nor the
      number it reports. */
  lemma {:induction false} NormalisedLookUp(memo: seq<CardRecord>, parsed: seq<CardRecord>, name: string)
    requires NormalisedFrom(memo, parsed)
    ensures FirstByName(memo, name) == FirstByName(parsed, name)
    ensures forall i :: 0 <= i < |memo| ==>
              KeepDigits(memo[i].collectorNumber) == KeepDigits(parsed[i].collectorNumber)
  {
    if memo != [] {
      assert NormalisedFrom(memo[1..], parsed[1..]);
      NormalisedLookUp(memo[1..], parsed[1..], name);
    }
    forall i | 0 <= i < |memo|
      ensures KeepDigits(memo[i].collectorNumber) == KeepDigits(parsed[i].collectorNumber)
    {
      KeepDigitsIdempotent(parsed[i].collectorNumber);
    }
  }

  /** The records with record `i`'s collector number replaced by its digits (`gsub!`). */
  function NormaliseAt(records: seq<CardRecord>, i: nat): seq<CardRecord>
  {
    if i < |records| then records[i := records[i].(collectorNumber := KeepDigits(records[i].collectorNumber))]
    else records
  }

  /** `@cards` once `cards` has been called: the memo if there is one, otherwise the
      downloaded list if the download worked. */
  function Memo(cards: Option<seq<CardRecord>>, view: map<string, string>, codecs: Codecs): Option<seq<CardRecord>>
  {
    if cards.Some? then cards
    else match CatalogCards(view, codecs)
      case Failure(_) => None
      case Success(records) => Some(records)
  }

  /** `@cards` after the lookup of one card and the normalisation of the record found. */
  function AfterLookUp(cards: Option<seq<CardRecord>>, view: map<string, string>, codecs: Codecs, name: string)
    : Option<seq<CardRecord>>
  {
    var memo := Memo(cards, view, codecs);
    match LookUp(view, codecs, name)
    case Success(i) => if memo.Some? then Some(NormaliseAt(memo.value, i)) else memo
    case Failure(_) => memo
  }

  /** `@cards` after the lookups of `names`, one after the other. */
  function AfterLookUps(cards: Option<seq<CardRecord>>, view: map<string, string>, codecs: Codecs, names: seq<string>)
    : Option<seq<CardRecord>>
  {
    if names == [] then cards
    else AfterLookUp(AfterLookUps(cards, view, codecs, names[..|names| - 1]), view, codecs, names[|names| - 1])
  }

  /** One more lookup after those of a prefix. */
  lemma AfterLookUpsStep(cards: Option<seq<CardRecord>>, view: map<string, string>, codecs: Codecs,
                         names: seq<string>, k: nat)
    requires k < |names|
    ensures AfterLookUps(cards, view, codecs, names[..k + 1])
         == AfterLookUp(AfterLookUps(cards, view, codecs, names[..k]), view, codecs, names[k])
  {
    assert names[..k + 1][..k] == names[..k];
  }

  class CubeCobra {
    /** `@cards`: not yet downloaded, or the card list. */
    var cards: Option<seq<CardRecord>>

    constructor ()
      ensures cards == None
    {
      cards := None;
    }

    /** A loaded card list is the download's, up to normalised collector numbers. */
    predicate Valid(view: map<string, string>, codecs: Codecs)
      reads this
    {
      cards.Some? ==>
        CatalogUrl in view && NormalisedFrom(cards.value, codecs.parseCsv(view[CatalogUrl]))
    }

    /** `cards`: `@cards ||= CSV.parse(csv, headers: true).map(&:to_h)`. */
    method Cards(cache: ResponseCache, net: Network, codecs: Codecs) returns (r: Result<seq<CardRecord>>)
      requires Valid(cache.View(net), codecs)
      modifies this, cache, net
      ensures cache.View(net) == old(cache.View(net)) && Valid(cache.View(net), codecs)
      ensures old(cards).Some? ==>
                r == Success(old(cards).value) && cards == old(cards)
                && cache.entries == old(cache.entries) && net.requests == old(net.requests)
      ensures old(cards).None? ==>
                && r == CatalogCards(old(cache.View(net)), codecs)
                && cards == (if r.Success? then Some(r.value) else None)
                && FetchedOnce(old(cache.entries), old(net.requests), cache.entries, net.requests, net.responses, CatalogUrl)
    {
      if cards.Some? {
        return Success(cards.value);
      }
      var csv := cache.FetchUrlResponse(CatalogUrl, net);
      if csv.Failure? {
        return Failure(csv.error);
      }
      var parsed := codecs.parseCsv(csv.value);
      cards := Some(parsed);
      r := Success(parsed);
    }

    /** `card_by_name(name)`, giving the position of the record in `@cards`, since the
        caller normalises that record in place. */
    method CardByName(name: string, cache: ResponseCache, net: Network, codecs: Codecs) returns (r: Result<nat>)
      requires Valid(cache.View(net), codecs)
      modifies this, cache, net
      ensures cache.View(net) == old(cache.View(net)) && Valid(cache.View(net), codecs)
      ensures r == LookUp(old(cache.View(net)), codecs, name)
      ensures cards == Memo(old(cards), old(cache.View(net)), codecs)
      ensures r.Success? ==> cards.Some? && r.value < |cards.value|
      ensures old(cards).Some? ==> cache.entries == old(cache.entries) && net.requests == old(net.requests)
      ensures old(cards).None? ==>
                FetchedOnce(old(cache.entries), old(net.requests), cache.entries, net.requests, net.responses, CatalogUrl)
    ensures CachedRun(old(cache.entries), old(net.requests), cache.entries, net.requests, net.responses, {CatalogUrl})
    {
      ghost var entries0, requests0 := cache.entries, net.requests;
      var all := Cards(cache, net, codecs);
      if old(cards).Some? {
        CachedRunNone(entries0, requests0, net.responses);
      } else {
        FetchedOnceIsRun(entries0, requests0, cache.entries, net.requests, net.responses, CatalogUrl);
      }
      if all.Failure? {
        return Failure(all.error);
      }
      NormalisedLookUp(all.value, codecs.parseCsv(cache.View(net)[CatalogUrl]), name);
      var found := FirstByName(all.value, name);
      if found.None? {
        return Failure(CubeCobraCardNotFound(name));
      }
      r := Success(found.value);
    }

    /** `collector_number.gsub!(/\D/, '')` on the record at position `i`. */
    method NormaliseCollectorNumber(i: nat, ghost view: map<string, string>, ghost codecs: Codecs)
      requires cards.Some? && i < |cards.value| && Valid(view, codecs)
      modifies this
      ensures cards == Some(NormaliseAt(old(cards).value, i))
      ensures Valid(view, codecs)
    {
      var records := cards.value;
      KeepDigitsIdempotent(codecs.parseCsv(view[CatalogUrl])[i].collectorNumber);
      cards := Some(records[i := records[i].(collectorNumber := KeepDigits(records[i].collectorNumber))]);
    }
  }
}
