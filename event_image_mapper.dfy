/**
 * `getImageByGenre`: the cover image of an event, looked up by its genre
 * in a fixed table, with the pop concert as the fallback.  The lookup is
 * exact and case-sensitive.
 */
module EventImageMapper {

  /** The fourteen imported cover images. */
  datatype Image =
    | Reggaeton | Banda | Pop | RegionalMexicano | HipHop | Rock | Electronic
    | Metal | Electropop | RockAlternativo | JazzFusion | FolkIndie | SoulFunk | Balada

  /** `genreMap`: its own keys and the image of each. */
  const GenreMap: map<string, Image> := map[
    "Reggaeton" := Reggaeton,
    "Banda" := Banda,
    "Pop" := Pop,
    "Pop Latino" := Pop,
    "Regional Mexicano" := RegionalMexicano,
    "Corridos Tumbados" := RegionalMexicano,
    "Hip Hop" := HipHop,
    "Rock" := Rock,
    "Rock Alternativo" := RockAlternativo,
    "Rock Clásico" := Rock,
    "Rock en Español" := Rock,
    "Rock Progresivo" := Rock,
    "Electrónica" := Electronic,
    "Electropop" := Electropop,
    "Death Metal" := Metal,
    "Rock/Metal" := Metal,
    "R&B" := Pop,
    "Soul/Funk" := SoulFunk,
    "Balada" := Balada,
    "Folk/Indie" := FolkIndie,
    "Indie Pop" := FolkIndie,
    "Ska" := Rock,
    "Jazz Fusion" := JazzFusion
  ]

  /**
   * The names an object literal inherits from `Object.prototype`.  Reading
   * one of them from `genreMap` yields a function or an object, not an
   * image, and that value is truthy, so `||` does not fall back.
   */
  const Inherited: set<string> := {
    "constructor", "hasOwnProperty", "isPrototypeOf", "propertyIsEnumerable",
    "toLocaleString", "toString", "valueOf", "__proto__",
    "__defineGetter__", "__defineSetter__", "__lookupGetter__", "__lookupSetter__"
  }

  /** What `genreMap[genre] || popImg` evaluates to: an image, or an inherited member. */
  datatype Value = Cover(image: Image) | Member(name: string)

  /** The lookup as written: own keys, then the prototype's members, then the fallback. */
  function LookupAsWritten(genre: string): (v: Value)
    ensures genre in GenreMap ==> v == Cover(GenreMap[genre])
    ensures genre !in GenreMap && genre in Inherited ==> v == Member(genre)
    ensures genre !in GenreMap && genre !in Inherited ==> v == Cover(Pop)
  {
    if genre in GenreMap then Cover(GenreMap[genre])
    else if genre in Inherited then Member(genre)
    else Cover(Pop)
  }

  /** A genre named after a prototype member gets that member rather than an image. */
  lemma InheritedKeyIsNoImage()
    ensures LookupAsWritten("constructor") == Member("constructor")
    ensures LookupAsWritten("toString").Member?
  {
    assert "constructor" !in GenreMap;
    assert "toString" !in GenreMap;
  }

  /** The lookup over own keys only: every genre gets an image. */
  function ImageByGenre(genre: string): (img: Image)
    ensures LookupAsWritten(genre).Cover? ==> img == LookupAsWritten(genre).image
    ensures genre !in GenreMap ==> img == Pop
  {
    if genre in GenreMap then GenreMap[genre] else Pop
  }

  /** Both lookups agree on every genre that is not a prototype member. */
  lemma AgreesOffPrototype(genre: string)
    requires genre !in Inherited
    ensures LookupAsWritten(genre) == Cover(ImageByGenre(genre))
  {
  }

  /** Pop Latino and R&B share the pop cover. */
  lemma PopAliases()
    ensures ImageByGenre("Pop Latino") == ImageByGenre("R&B") == ImageByGenre("Pop") == Pop
  {
  }

  /** Corridos Tumbados shares the regional Mexican cover. */
  lemma RegionalAliases()
    ensures ImageByGenre("Corridos Tumbados") == ImageByGenre("Regional Mexicano") == RegionalMexicano
  {
  }

  /** Four more genres share the rock cover; Rock Alternativo has its own. */
  lemma RockAliases()
    ensures ImageByGenre("Rock Clásico") == ImageByGenre("Rock en Español") == Rock
    ensures ImageByGenre("Rock Progresivo") == ImageByGenre("Ska") == ImageByGenre("Rock") == Rock
    ensures ImageByGenre("Rock Alternativo") == RockAlternativo
  {
    assert GenreMap["Rock Clásico"] == GenreMap["Rock en Español"] == Rock;
    assert GenreMap["Rock Progresivo"] == GenreMap["Ska"] == GenreMap["Rock"] == Rock;
  }

  /** Rock/Metal shares the death-metal cover, Indie Pop the folk cover. */
  lemma MetalAndIndieAliases()
    ensures ImageByGenre("Rock/Metal") == ImageByGenre("Death Metal") == Metal
    ensures ImageByGenre("Indie Pop") == ImageByGenre("Folk/Indie") == FolkIndie
  {
  }

  /** The match is exact: a lower-case "rock" or an unaccented "Electronica" gets the fallback. */
  lemma CaseSensitive()
    ensures ImageByGenre("rock") == Pop
    ensures ImageByGenre("Electronica") == Pop
    ensures ImageByGenre("") == Pop
  {
    assert "rock" !in GenreMap;
    assert "Electronica" !in GenreMap;
    assert "" !in GenreMap;
  }

  /** Every imported image is the cover of some genre. */
  lemma EveryImageUsed(img: Image)
    ensures exists g :: g in GenreMap && GenreMap[g] == img
  {
    if img.Reggaeton? || img.Banda? || img.Pop? || img.RegionalMexicano? || img.HipHop? || img.Rock? || img.Electronic? {
      FirstImagesUsed(img);
    } else {
      OtherImagesUsed(img);
    }
  }

  lemma FirstImagesUsed(img: Image)
    requires img.Reggaeton? || img.Banda? || img.Pop? || img.RegionalMexicano? || img.HipHop? || img.Rock? || img.Electronic?
    ensures exists g :: g in GenreMap && GenreMap[g] == img
  {
    match img
    case Reggaeton => assert GenreMap["Reggaeton"] == img;
    case Banda => assert GenreMap["Banda"] == img;
    case Pop => assert GenreMap["Pop"] == img;
    case RegionalMexicano => assert GenreMap["Regional Mexicano"] == img;
    case HipHop => assert GenreMap["Hip Hop"] == img;
    case Rock => assert GenreMap["Rock"] == img;
    case Electronic => assert GenreMap["Electrónica"] == img;
  }

  lemma OtherImagesUsed(img: Image)
    requires !(img.Reggaeton? || img.Banda? || img.Pop? || img.RegionalMexicano? || img.HipHop? || img.Rock? || img.Electronic?)
    ensures exists g :: g in GenreMap && GenreMap[g] == img
  {
    match img
    case Metal => assert GenreMap["Death Metal"] == img;
    case Electropop => assert GenreMap["Electropop"] == img;
    case RockAlternativo => assert GenreMap["Rock Alternativo"] == img;
    case JazzFusion => assert GenreMap["Jazz Fusion"] == img;
    case FolkIndie => assert GenreMap["Folk/Indie"] == img;
    case SoulFunk => assert GenreMap["Soul/Funk"] == img;
    case Balada => assert GenreMap["Balada"] == img;
  }
}
