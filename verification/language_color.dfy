/**
 The background colour class shown beside a repository's language: five
 languages have a colour of their own and every other name gets grey.
 The lookup is by exact, case-sensitive name.
 */
module LanguageColor {

  /** The colour of any language without an entry of its own. */
  const Fallback: string := "bg-gray-500"

  /** The fixed table of language colours. */
  const Colors: map<string, string> := map[
    "JavaScript" := "bg-yellow-500",
    "TypeScript" := "bg-blue-500",
    "Python" := "bg-green-500",
    "HTML" := "bg-red-500",
    "CSS" := "bg-blue-400"]

  /** Every colour the lookup can produce. */
  const Palette: set<string> :=
    {"bg-yellow-500", "bg-blue-500", "bg-green-500", "bg-red-500", "bg-blue-400", "bg-gray-500"}

  /** `colors[language] || "bg-gray-500"`. */
  function ColorOf(language: string): (c: string)
    ensures c in Palette
    ensures c == Fallback <==> language !in Colors
    ensures language in Colors ==> c == Colors[language]
  {
    if language in Colors && Colors[language] != "" then Colors[language] else Fallback
  }

  /** The five languages with a colour of their own. */
  lemma KnownLanguages()
    ensures ColorOf("JavaScript") == "bg-yellow-500"
    ensures ColorOf("TypeScript") == "bg-blue-500"
    ensures ColorOf("Python") == "bg-green-500"
    ensures ColorOf("HTML") == "bg-red-500"
    ensures ColorOf("CSS") == "bg-blue-400"
  {
  }

  /** The lookup is case-sensitive: a lower-case spelling falls back to grey. */
  lemma CaseSensitive()
    ensures ColorOf("javascript") == Fallback
    ensures ColorOf("typescript") == Fallback
  {
  }

  /** Different known languages get different colours, and the palette has six entries. */
  lemma ColorsDistinct(a: string, b: string)
    requires a in Colors && b in Colors && a != b
    ensures ColorOf(a) != ColorOf(b)
    ensures |Palette| == 6
  {
  }
}
