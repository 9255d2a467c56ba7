/**
 * benchHUB/utils/anonymise.py: the hostname and user name are removed from the system
 * information of a result document before it is shared.
 *
 * The result document is a dictionary object whose "system_info" entry is itself a
 * dictionary object; copying the outer dictionary (dict.copy) is shallow, so the copy
 * and the original share the nested object, and removing keys from it through the copy
 * removes them from the caller's document as well.
 */
module Anonymise {
  import opened Wrappers
  import opened PyValue

  const SENSITIVE: set<string> := {"hostname", "user"}

  /** The system information with the sensitive keys popped (absent keys are ignored). */
  function Scrub(info: Dictionary): (r: Dictionary)
    ensures forall k :: k in r <==> k in info && k !in SENSITIVE
    ensures forall k :: k in r ==> r[k] == info[k]
  {
    info - SENSITIVE
  }

  /** Scrubbing scrubbed information changes nothing. */
  lemma ScrubIdempotent(info: Dictionary)
    ensures Scrub(Scrub(info)) == Scrub(info)
  {
  }

  /** anonymise_results on values: the document with its system information scrubbed,
      an empty one when it has none, TypeError when it holds a list there (list.pop
      takes at most one argument), and AttributeError when it holds any other value
      that is not a dictionary (None included), which has no pop at all. */
  function AnonymiseValue(results: Dictionary): (r: Result<Dictionary, Exception>)
    ensures r.Err? <==> "system_info" in results && !results["system_info"].Dict?
    ensures r.Err? ==> r.error == (if results["system_info"].List? then TypeError else AttributeError)
    ensures r.Ok? ==> r.value.Keys == results.Keys + {"system_info"}
    ensures r.Ok? ==> forall k :: k in results && k != "system_info" ==> r.value[k] == results[k]
    ensures r.Ok? ==> r.value["system_info"].Dict?
                      && forall k :: k in r.value["system_info"].entries ==> k !in SENSITIVE
    ensures r.Ok? && "system_info" !in results ==> r.value["system_info"] == Dict(map[])
    ensures r.Ok? && "system_info" in results ==>
      r.value["system_info"] == Dict(Scrub(results["system_info"].entries))
  {
    var info := GetOr(results, "system_info", Dict(map[]));
    if info.List? then Err(TypeError)
    else if !info.Dict? then Err(AttributeError)
    else Ok(results["system_info" := Dict(Scrub(info.entries))])
  }

  /** Anonymising an anonymised document gives it back unchanged. */
  lemma {:induction false} AnonymiseIdempotent(results: Dictionary)
    requires AnonymiseValue(results).Ok?
    ensures AnonymiseValue(AnonymiseValue(results).value) == AnonymiseValue(results)
  {
    var once := AnonymiseValue(results).value;
    var info := once["system_info"].entries;
    ScrubIdempotent(GetOr(results, "system_info", Dict(map[])).entries);
    assert Scrub(info) == info;
    assert once["system_info" := Dict(Scrub(info))] == once;
  }

  /** A nested dictionary object that is updated in place. */
  class InfoDict {
    var entries: Dictionary

    constructor (entries: Dictionary)
      ensures this.entries == entries
    {
      this.entries := entries;
    }

    /** d.pop(key, None) with the result discarded. */
    method Pop(key: string)
      modifies this
      ensures entries == old(entries) - {key}
    {
      entries := entries - {key};
    }

    /** The two pops of anonymise_results: hostname, then user. */
    method PopSensitive()
      modifies this
      ensures entries == Scrub(old(entries))
    {
      Pop("hostname");
      Pop("user");
      assert entries == old(entries) - SENSITIVE;
    }
  }

  /** An entry of a result document: a plain value, or a reference to a nested
      dictionary object. */
  datatype Entry = Plain(v: Value) | Nested(d: InfoDict)

  /** The value an entry stands for. */
  function ValueOf(e: Entry): Value
    reads if e.Nested? then {e.d} else {}
  {
    match e
    case Plain(v) => v
    case Nested(d) => Dict(d.entries)
  }

  /** A result document whose "system_info" may be a shared dictionary object. */
  class ResultDict {
    var entries: map<string, Entry>

    /** Nested dictionaries are held as references, not as plain values, and no nested
        object appears under two keys, as in a decoded JSON document. */
    predicate Valid()
      reads this
    {
      && (forall k :: k in entries && entries[k].Plain? ==> !entries[k].v.Dict?)
      && (forall k, k' :: k in entries && k' in entries && k != k' && entries[k].Nested? && entries[k'].Nested?
            ==> entries[k].d != entries[k'].d)
    }

    /** The nested dictionary objects the document refers to. */
    function Objects(): set<InfoDict>
      reads this
    {
      set k | k in entries && entries[k].Nested? :: entries[k].d
    }

    /** The nested dictionary object under "system_info", if there is one. */
    function SystemInfo(): set<InfoDict>
      reads this
    {
      if "system_info" in entries && entries["system_info"].Nested? then {entries["system_info"].d} else {}
    }

    /** The document as a value, nested objects read as the dictionaries they hold. */
    function View(): Dictionary
      reads this, Objects()
    {
      map k | k in entries :: ValueOf(entries[k])
    }

    constructor (entries: map<string, Entry>)
      ensures this.entries == entries
    {
      this.entries := entries;
    }

    /** dict.copy(): a new outer dictionary holding the same entries, nested objects shared. */
    method Copy() returns (c: ResultDict)
      ensures fresh(c) && c.entries == entries
    {
      c := new ResultDict(entries);
    }
  }

  /** anonymise_results(results): the outer document is copied, the sensitive keys are
      popped from its system information object, which is shared with the caller's
      document, and the copy is returned. */
  method AnonymiseResults(results: ResultDict) returns (r: Result<ResultDict, Exception>)
    requires results.Valid()
    modifies results.SystemInfo()
    ensures results.entries == old(results.entries)
    ensures r.Err? <==> "system_info" in results.entries && results.entries["system_info"].Plain?
    ensures r.Err? ==> unchanged(results.SystemInfo())
    ensures r.Err? ==>
      r.error == (if results.entries["system_info"].v.List? then TypeError else AttributeError)
    ensures r.Ok? ==> fresh(r.value) && "system_info" in r.value.entries && r.value.entries["system_info"].Nested?
    ensures r.Ok? ==>
      var info := r.value.entries["system_info"].d;
      && r.value.entries == results.entries["system_info" := Nested(info)]
      && (if results.SystemInfo() == {} then fresh(info) && info.entries == map[]
          else info in results.SystemInfo() && info.entries == Scrub(old(info.entries)))
    ensures r.Ok? ==> r.value.View() == AnonymiseValue(old(results.View())).value
    ensures r.Ok? && results.SystemInfo() != {} ==> results.View() == r.value.View()
  {
    ghost var before := results.View();
    var anonymised := results.Copy();
    var info: InfoDict;
    if "system_info" in anonymised.entries {
      match anonymised.entries["system_info"]
      case Plain(v) =>
        assert results.SystemInfo() == {};
        return if v.List? then Err(TypeError) else Err(AttributeError);
      case Nested(d) =>
        info := d;
    } else {
      info := new InfoDict(map[]);
    }
    info.PopSensitive();
    anonymised.entries := anonymised.entries["system_info" := Nested(info)];
    ghost var expected := AnonymiseValue(before).value;
    forall k | k in anonymised.entries && k != "system_info"
      ensures anonymised.View()[k] == expected[k]
    {
      var e := anonymised.entries[k];
      assert e == results.entries[k];
      if e.Nested? {
        assert e.d != info;
      }
      assert ValueOf(e) == old(ValueOf(e));
    }
    assert anonymised.View()["system_info"] == expected["system_info"];
    assert anonymised.View().Keys == expected.Keys;
    assert anonymised.View() == expected;
    if results.SystemInfo() != {} {
      assert anonymised.entries == results.entries;
    }
    r := Ok(anonymised);
  }
}
