/** The localised names of a species record and the lookup every page uses
    to pick the Japanese one, plus the outcomes a species request can have. */
module Species {

  datatype Option<T> = None | Some(value: T)

  /** One element of a species record's `names` list: the name and the
      `language.name` tag it is written in. */
  datatype NameEntry = NameEntry(name: string, language: string)

  const Japanese: string := "ja"

  /** The name shown when a species record has no Japanese entry. */
  const Unknown: string := "不明"

  /** What parsing the body of a species response gave: a `names` list, or
      anything that makes `response.json()` or `data.names.find` throw. */
  datatype SpeciesBody = Unparseable | Names(names: seq<NameEntry>)

  /** How a request for a species record ended: `fetch` itself threw, or a
      response came back with its `ok` flag and its body. */
  datatype SpeciesFetch = Threw | Responded(ok: bool, body: SpeciesBody)

  predicate NoJapanese(names: seq<NameEntry>) {
    forall i :: 0 <= i < |names| ==> names[i].language != Japanese
  }

  /** `i` is the position of the first entry tagged Japanese. */
  predicate IsFirstJapanese(names: seq<NameEntry>, i: int) {
    0 <= i < |names| && names[i].language == Japanese &&
    forall j :: 0 <= j < i ==> names[j].language != Japanese
  }

  /** `names.find(n => n.language.name === "ja")`, giving the entry's name. */
  function FindJapanese(names: seq<NameEntry>): (r: Option<string>)
    ensures r.None? <==> NoJapanese(names)
  {
    if names == [] then None
    else if names[0].language == Japanese then Some(names[0].name)
    else
      var r := FindJapanese(names[1..]);
      assert NoJapanese(names) <==> NoJapanese(names[1..]) by {
        if NoJapanese(names[1..]) {
          forall i | 0 <= i < |names| ensures names[i].language != Japanese {
            if i > 0 { assert names[i] == names[1..][i - 1]; }
          }
        }
      }
      r
  }

  /** What `find` returns is the name of the FIRST Japanese entry. */
  lemma {:induction false} FindJapaneseIsFirst(names: seq<NameEntry>)
    ensures FindJapanese(names).Some? ==>
      exists i :: IsFirstJapanese(names, i) && names[i].name == FindJapanese(names).value
  {
    if names != [] && names[0].language != Japanese {
      var tail := names[1..];
      FindJapaneseIsFirst(tail);
      if FindJapanese(tail).Some? {
        var i :| IsFirstJapanese(tail, i) && tail[i].name == FindJapanese(tail).value;
        assert IsFirstJapanese(names, i + 1);
      }
    } else if names != [] {
      assert IsFirstJapanese(names, 0);
    }
  }

  /** The find-or-fallback rule shared by the pages: the first Japanese name,
      or `fallback` when the list has none. */
  function JapaneseOr(names: seq<NameEntry>, fallback: string): (r: string)
    ensures (exists i :: IsFirstJapanese(names, i) && r == names[i].name)
         || (NoJapanese(names) && r == fallback)
  {
    FindJapaneseIsFirst(names);
    match FindJapanese(names)
    case Some(n) => n
    case None => fallback
  }
}
