/**
  The service-category picker shared by the provider-onboarding wizard and
  the service request form: a list of names, each offered under the
  value `name.toLowerCase().replace(' ', '-')`.
 */
module Categories {
  import opened Text

  /** The value submitted for a name: lower-cased, then its first space
      (if any) turned into `-`. It is as long as the name, and each of its
      characters is the name's character lower-cased or a `-`. */
  function CategorySlug(name: string): (r: string)
    ensures |r| == |name|
    ensures forall i :: 0 <= i < |name| ==> r[i] == LowerChar(name[i]) || r[i] == '-'
  {
    ReplaceFirstOnlyChangesTarget(Lower(name), ' ', '-');
    ReplaceFirst(Lower(name), ' ', '-')
  }

  /** Lower-casing moves no space: the lower-cased name has a space exactly
      where the name has one. */
  lemma LowerKeepsSpaces(name: string)
    ensures forall i :: 0 <= i < |name| ==> (Lower(name)[i] == ' ' <==> name[i] == ' ')
    ensures (' ' in Lower(name)) <==> (' ' in name)
  {
    if ' ' in Lower(name) {
      var i :| 0 <= i < |name| && Lower(name)[i] == ' ';
      assert name[i] == ' ';
    }
    if ' ' in name {
      var i :| 0 <= i < |name| && name[i] == ' ';
      assert Lower(name)[i] == ' ';
    }
  }

  /** The slug of a name without a space is the name lower-cased; for a
      name with a space, it is the lower-cased name with only its first
      space replaced by `-`. It never holds an upper-case ASCII letter and
      has the name's length. */
  lemma SlugSpec(name: string)
    ensures |CategorySlug(name)| == |name|
    ensures ' ' !in name ==> CategorySlug(name) == Lower(name)
    ensures forall i :: 0 <= i < |name| && name[i] == ' ' && ' ' !in name[..i] ==>
      CategorySlug(name) == Lower(name)[..i] + "-" + Lower(name)[i + 1..]
    ensures forall i :: 0 <= i < |name| ==> !('A' <= CategorySlug(name)[i] <= 'Z')
  {
    var low := Lower(name);
    LowerKeepsSpaces(name);
    ReplaceFirstSpec(low, ' ', '-');
    forall i | 0 <= i < |name| && name[i] == ' ' && ' ' !in name[..i]
      ensures CategorySlug(name) == low[..i] + "-" + low[i + 1..]
    {
      assert ' ' !in low[..i] by {
        LowerKeepsSpaces(name[..i]);
        assert Lower(name[..i]) == low[..i];
      }
    }
    assert CategorySlug(name) == ReplaceFirst(low, ' ', '-');
    ReplaceFirstOnlyChangesTarget(low, ' ', '-');
  }

  /** The option values of the picker, one per name. */
  function CategoryOptions(names: seq<string>): (r: seq<string>)
    ensures |r| == |names|
    ensures forall i :: 0 <= i < |names| ==> r[i] == CategorySlug(names[i])
  {
    if names == [] then [] else [CategorySlug(names[0])] + CategoryOptions(names[1..])
  }
}
