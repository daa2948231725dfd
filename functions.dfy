/** `Helpers/functions.ts`: the English pluralisation helper used by the scaffolding
    commands. */
module Functions {
  import opened Text
  import Str

  predicate IsVowel(c: char) { c == 'a' || c == 'e' || c == 'i' || c == 'o' || c == 'u' }

  /** The word ends in `y` after a vowel (`/[aeiou]y$/`). */
  predicate VowelY(word: string) {
    |word| >= 2 && word[|word| - 1] == 'y' && IsVowel(word[|word| - 2])
  }

  /** `pluralize(word)`. */
  function Pluralize(word: string): (r: string)
    ensures EndsWith(r, "s")
    ensures EndsWith(word, "y") && !VowelY(word) ==> r == word[..|word| - 1] + "ies"
    ensures VowelY(word) ==> r == word + "s"
    ensures !EndsWith(word, "y") &&
            (EndsWith(word, "s") || EndsWith(word, "sh") || EndsWith(word, "ch") || EndsWith(word, "x") || EndsWith(word, "z"))
            ==> r == word + "es"
    ensures !EndsWith(word, "y") && !EndsWith(word, "s") && !EndsWith(word, "sh") && !EndsWith(word, "ch") &&
            !EndsWith(word, "x") && !EndsWith(word, "z")
            ==> r == word + "s"
  {
    if EndsWith(word, "y") && !VowelY(word) then word[..|word| - 1] + "ies"
    else if EndsWith(word, "s") || EndsWith(word, "sh") || EndsWith(word, "ch") || EndsWith(word, "x") || EndsWith(word, "z")
    then
      assert !EndsWith(word, "y") by {
        if VowelY(word) { assert word[|word| - 1] == 'y'; }
      }
      word + "es"
    else word + "s"
  }

  /** `pluralize` and `Str.plural` agree except on a vowel before a final `y` and on a final
      `x` or `z`. */
  lemma PluralizeAgreesWithPlural(word: string)
    requires !VowelY(word) && !EndsWith(word, "x") && !EndsWith(word, "z")
    ensures Pluralize(word) == Str.Plural(word)
  {
  }

  /** Where they differ: `Str.plural` gives "boies" and "boxs". */
  lemma PluralizeDiffers()
    ensures Pluralize("boy") == "boys" && Str.Plural("boy") == "boies"
    ensures Pluralize("box") == "boxes" && Str.Plural("box") == "boxs"
  {
    assert VowelY("boy");
    assert EndsWith("box", "x") && !EndsWith("box", "y");
    assert !EndsWith("box", "s") && !EndsWith("box", "sh") && !EndsWith("box", "ch");
  }
}
