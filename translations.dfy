/** Team-name translation (src/utils/translations.ts): a fixed table from
    English team names to French ones, and a lookup that falls back to the
    name it was given. */
module Translations {
  import opened Wrappers

  /** The translation table as a finite partial map: indexing it with a key
      of the table gives that key's French name, with any other string
      nothing. Keys match exactly, character by character. Every value in
      the table is a non-empty string. */
  function TeamNameTranslations(englishName: string): (r: Option<string>)
    ensures r.Some? ==> r.value != ""
  {
    match englishName
    // Europe
    case "France" => Some("France")
    case "Germany" => Some("Allemagne")
    case "Spain" => Some("Espagne")
    case "Portugal" => Some("Portugal")
    case "England" => Some("Angleterre")
    case "Belgium" => Some("Belgique")
    case "Croatia" => Some("Croatie")
    case "Netherlands" => Some("Pays-Bas")
    case "Italy" => Some("Italie")
    case "Switzerland" => Some("Suisse")
    // South America
    case "Brazil" => Some("Brésil")
    case "Argentina" => Some("Argentine")
    case "Uruguay" => Some("Uruguay")
    case "Colombia" => Some("Colombie")
    case "Chile" => Some("Chili")
    case "Peru" => Some("Pérou")
    case "Ecuador" => Some("Équateur")
    case "Paraguay" => Some("Paraguay")
    case "Venezuela" => Some("Venezuela")
    case "Bolivia" => Some("Bolivie")
    // North America
    case "USA" => Some("États-Unis")
    case "Mexico" => Some("Mexique")
    case "Canada" => Some("Canada")
    case "Costa Rica" => Some("Costa Rica")
    case "Honduras" => Some("Honduras")
    case "Jamaica" => Some("Jamaïque")
    case "Panama" => Some("Panama")
    case "Cuba" => Some("Cuba")
    case "Trinidad and Tobago" => Some("Trinité-et-Tobago")
    case "El Salvador" => Some("Salvador")
    // Africa
    case "Morocco" => Some("Maroc")
    case "Senegal" => Some("Sénégal")
    case "Nigeria" => Some("Nigéria")
    case "Egypt" => Some("Égypte")
    case "Cameroon" => Some("Cameroun")
    case "Ghana" => Some("Ghana")
    case "Algeria" => Some("Algérie")
    case "Tunisia" => Some("Tunisie")
    case "Ivory Coast" => Some("Côte d'Ivoire")
    case "South Africa" => Some("Afrique du Sud")
    // Asia
    case "Japan" => Some("Japon")
    case "South Korea" => Some("Corée du Sud")
    case "Saudi Arabia" => Some("Arabie Saoudite")
    case "Iran" => Some("Iran")
    case "Qatar" => Some("Qatar")
    case "China" => Some("Chine")
    case "United Arab Emirates" => Some("Émirats Arabes Unis")
    case "Iraq" => Some("Irak")
    case "Syria" => Some("Syrie")
    // Oceania
    case "Australia" => Some("Australie")
    case "New Zealand" => Some("Nouvelle-Zélande")
    case _ => None
  }

  /** translateTeamName: the table's entry when there is a non-empty one,
      otherwise the name itself. Because no entry is empty, this is the
      table's value on every key of the table and the identity elsewhere,
      and it is never empty for a non-empty name. */
  function TranslateTeamName(englishName: string): (r: string)
    ensures TeamNameTranslations(englishName).Some? ==> r == TeamNameTranslations(englishName).value
    ensures TeamNameTranslations(englishName).None? ==> r == englishName
    ensures englishName != "" ==> r != ""
  {
    var entry := TeamNameTranslations(englishName);
    if entry.Some? && entry.value != "" then entry.value else englishName
  }

  /** A known key gives its French value. */
  lemma KnownNameIsTranslated()
    ensures TranslateTeamName("Germany") == "Allemagne"
    ensures TranslateTeamName("Ivory Coast") == "Côte d'Ivoire"
  {
  }

  /** Every name outside the table is returned unchanged: the identity
      fallback of `TranslateTeamName`'s contract, stated for a given name. */
  lemma UnknownNameIsUnchanged(name: string)
    requires TeamNameTranslations(name).None?
    ensures TranslateTeamName(name) == name
  {
  }

  /** Lookup is an exact, case-sensitive match: "germany" is not the key "Germany". */
  lemma LookupIsCaseSensitive()
    ensures TranslateTeamName("germany") == "germany"
  {
  }

  /** Entries that map a name to itself return their input. */
  lemma SelfMappedNames()
    ensures TranslateTeamName("France") == "France"
    ensures TranslateTeamName("Iran") == "Iran"
  {
  }
}
