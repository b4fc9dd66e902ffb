/** Prefixed identifiers: the `Entities` prefix table and `generateId`. */
module Ids {

  /** The keys of the `Entities` table. */
  datatype Entity = Example | File | Po | Bol | Inv | Match | Flag

  /** The prefix each entity's identifiers start with. */
  function Prefix(e: Entity): string {
    match e
    case Example => "e"
    case File => "f"
    case Po => "po"
    case Bol => "bol"
    case Inv => "inv"
    case Match => "m"
    case Flag => "f"
  }

  /** The template type `Id<e>`, that is `${prefix}_${string}`. */
  predicate IsIdOf(e: Entity, id: string) {
    |Prefix(e)| + 1 <= |id| && id[..|Prefix(e)| + 1] == Prefix(e) + "_"
  }

  /** The random part of an identifier of kind `e`. */
  function Suffix(e: Entity, id: string): string
    requires IsIdOf(e, id)
  {
    id[|Prefix(e)| + 1..]
  }

  /**
   * `generateId(e)`: the prefix, an underscore and a random suffix. The
   * suffix comes from nanoid and is a parameter here.
   */
  function GenerateId(e: Entity, suffix: string): (id: string)
    ensures IsIdOf(e, id)
    ensures Suffix(e, id) == suffix
  {
    Prefix(e) + "_" + suffix
  }

  /** Two identifiers of one kind are equal exactly when their suffixes are. */
  lemma GenerateIdInjective(e: Entity, s: string, t: string)
    ensures GenerateId(e, s) == GenerateId(e, t) <==> s == t
  {
    if GenerateId(e, s) == GenerateId(e, t) {
      assert Suffix(e, GenerateId(e, s)) == Suffix(e, GenerateId(e, t));
    }
  }

  /** `file` and `flag` share the prefix "f": the prefix table is not injective. */
  lemma FileAndFlagShareAPrefix(suffix: string)
    ensures File != Flag && Prefix(File) == Prefix(Flag)
    ensures GenerateId(File, suffix) == GenerateId(Flag, suffix)
  {
  }

  /** Apart from that pair, an identifier's prefix determines its entity. */
  lemma {:induction false} IdDeterminesEntity(a: Entity, b: Entity, id: string)
    requires IsIdOf(a, id) && IsIdOf(b, id)
    ensures a == b || {a, b} == {File, Flag}
  {
    assert id[0] == Prefix(a)[0] == Prefix(b)[0];
    assert Prefix(a)[0] == Prefix(b)[0];
  }
}
