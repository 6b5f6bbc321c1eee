/**
 * The factory through which the container framework creates Firebird containers for the
 * database types named in `jdbc:tc:` URLs.
 */
module FirebirdProvider {
  import opened Firebird
  import JavaString

  /** Whether this factory handles `databaseType`: exactly the two names, compared case-sensitively. */
  function Supports(databaseType: string): (r: bool)
    ensures r <==> databaseType == Name || databaseType == AlternateName
  {
    Name == databaseType || AlternateName == databaseType
  }

  /** The comparison is case-sensitive: a name that differs from "firebird" only in case is refused. */
  lemma SupportsIsCaseSensitive()
    ensures JavaString.EqualsIgnoreCase(Name, "FIREBIRD") && !Supports("FIREBIRD")
  {
    JavaString.EqualsIgnoreCaseIffLowered(Name, "FIREBIRD");
    assert JavaString.Lowered("FIREBIRD") == Name;
    assert JavaString.Lowered(Name) == Name;
  }

  /** A container for the supported repository with exactly the given tag, and default options. */
  method NewInstance(tag: string, systemTimeZone: string) returns (c: FirebirdContainer)
    ensures fresh(c)
    ensures c.image == ImageName(Image, tag)
    ensures c.Settings() == DefaultConfig(systemTimeZone)
    ensures c.env == map[] && c.urlParameters == map[]
  {
    c := new FirebirdContainer(ImageName(Image, tag), systemTimeZone);
  }

  /** A container for the default tag: the same as `NewInstance(DefaultTag, ...)`. */
  method NewDefaultInstance(systemTimeZone: string) returns (c: FirebirdContainer)
    ensures fresh(c)
    ensures c.image == ImageName(Image, DefaultTag)
    ensures c.Settings() == DefaultConfig(systemTimeZone)
    ensures c.env == map[] && c.urlParameters == map[]
  {
    c := NewInstance(DefaultTag, systemTimeZone);
  }
}
