/** The quiz page's table of the eighteen type slugs and their Japanese
    names, used to turn a Pokémon's types into the hint text. */
module TypeNames {

  const TypeTranslations: map<string, string> := map[
    "normal" := "ノーマル", "fire" := "ほのお", "water" := "みず", "electric" := "でんき",
    "grass" := "くさ", "ice" := "こおり", "fighting" := "かくとう", "poison" := "どく",
    "ground" := "じめん", "flying" := "ひこう", "psychic" := "エスパー", "bug" := "むし",
    "rock" := "いわ", "ghost" := "ゴースト", "dragon" := "ドラゴン", "steel" := "はがね",
    "dark" := "あく", "fairy" := "フェアリー"
  ]

  /** `typeTranslations[slug] || slug`: the table's word for a known slug,
      the slug itself for any other. */
  function TranslateType(slug: string): (r: string)
    ensures slug in TypeTranslations ==> r == TypeTranslations[slug] && r != ""
    ensures slug !in TypeTranslations ==> r == slug
  {
    if slug in TypeTranslations && TypeTranslations[slug] != "" then TypeTranslations[slug] else slug
  }

  /** `pokemon.types.map(...)`: one word per type, in the source's order. */
  function TranslateTypes(slugs: seq<string>): (r: seq<string>)
    ensures |r| == |slugs|
    ensures forall i :: 0 <= i < |r| ==> r[i] == TranslateType(slugs[i])
  {
    if slugs == [] then [] else [TranslateType(slugs[0])] + TranslateTypes(slugs[1..])
  }

  /** No Japanese word in the table is itself a slug of the table, so a word
      that was already translated comes through a second pass unchanged. */
  lemma TranslateTypeIdempotent(slug: string)
    ensures TranslateType(TranslateType(slug)) == TranslateType(slug)
  {
  }

  lemma ElectricAndUnknownSlug()
    ensures TranslateType("electric") == "でんき"
    ensures TranslateType("unknown-slug") == "unknown-slug"
  {
  }
}
