/** The test of examples/enum_from_str_macro/tests/enum.rs, on the model of the derive. */
module EnumTests {
  import opened Wrappers
  import opened EnumFromStr

  /** `pub enum Foo { Bar, Baz }` */
  const Foo := DeriveInput(Public, "Foo", 0, Enum([Variant("Bar", Unit), Variant("Baz", Unit)]))

  /**
   * The derived `Foo::from_str` maps "Bar" and "Baz" to their variants and
   * rejects "Qux" with `ParseFooError("Qux")`.
   */
  lemma FooFromStr()
    ensures EnsureEnumErrors(Foo) == []
    ensures FromStr(ImplFromStrExpand(Foo).output.value, "Bar") == Ok("Bar")
    ensures FromStr(ImplFromStrExpand(Foo).output.value, "Baz") == Ok("Baz")
    ensures FromStr(ImplFromStrExpand(Foo).output.value, "Qux") == Err(ParseError("ParseFooError", "Qux"))
  {
    EnsureEnumPassesExactlyUnitEnums(Foo);
    var arms := FromStrArms(Foo.data.variants);
    assert arms == [Arm("Bar", "Bar"), Arm("Baz", "Baz")];
    assert ErrorStructIdent("Foo") == "ParseFooError";
    assert "Qux"[0] != "Bar"[0] && "Qux"[0] != "Baz"[0] && "Baz"[2] != "Bar"[2];
    assert MatchArms(arms[2..], "ParseFooError", "Qux") == Err(ParseError("ParseFooError", "Qux"));
  }
}
