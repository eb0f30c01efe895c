/**
 * The keyword list editor (src/components/landing-generator/KeywordInput.tsx;
 * src/components/LandingGenerator.tsx repeats it word for word): a pending
 * text input and the list of accepted keywords.
 */
module Keywords {
  import opened Text

  /** Every keyword is trimmed, non-empty and present once; keywords are
      compared exactly, case included. */
  predicate WellFormed(ks: seq<string>) {
    && (forall i :: 0 <= i < |ks| ==> ks[i] != [] && IsTrimmed(ks[i]))
    && (forall i, j :: 0 <= i < j < |ks| ==> ks[i] != ks[j])
  }

  /** Adding a trimmed keyword that is new keeps the list well formed. */
  lemma AppendWellFormed(ks: seq<string>, t: string)
    requires WellFormed(ks) && t != [] && IsTrimmed(t) && t !in ks
    ensures WellFormed(ks + [t])
  {
    var ks' := ks + [t];
    forall i, j | 0 <= i < j < |ks'|
      ensures ks'[i] != ks'[j]
    {
      if j == |ks| {
        assert ks'[i] == ks[i];
      }
    }
  }

  /** Dropping one element keeps the list well formed. */
  lemma DropWellFormed(ks: seq<string>, index: int)
    requires WellFormed(ks) && 0 <= index < |ks|
    ensures WellFormed(ks[..index] + ks[index + 1..])
  {
    var ks' := ks[..index] + ks[index + 1..];
    forall i | 0 <= i < |ks'|
      ensures ks'[i] == ks[if i < index then i else i + 1]
    {
    }
  }

  class KeywordEditor {
    /** The accepted keywords, in the order they were added. */
    var keywords: seq<string>
    /** The text in the keyword input box. */
    var keyword: string

    ghost predicate Valid()
      reads this
    {
      WellFormed(keywords)
    }

    constructor ()
      ensures keywords == [] && keyword == ""
      ensures Valid()
    {
      keywords := [];
      keyword := "";
    }

    /** Typing into the input box. */
    method Type(text: string)
      requires Valid()
      modifies this`keyword
      ensures Valid()
      ensures keyword == text
    {
      keyword := text;
    }

    /** `addKeyword`: the trimmed input is appended and the input cleared,
        unless it is empty or already in the list, in which case nothing
        changes. */
    method Add()
      requires Valid()
      modifies this
      ensures Valid()
      ensures var t := Trim(old(keyword));
              if t != [] && t !in old(keywords) then
                keywords == old(keywords) + [t] && keyword == ""
              else
                keywords == old(keywords) && keyword == old(keyword)
    {
      var t := Trim(keyword);
      if t != [] && t !in keywords {
        AppendWellFormed(keywords, t);
        keywords := keywords + [t];
        keyword := "";
      }
    }

    /** `removeKeyword`: the element at `index` goes and the others keep
        their order; an index outside the list changes nothing. */
    method RemoveAt(index: int)
      requires Valid()
      modifies this`keywords
      ensures Valid()
      ensures 0 <= index < |old(keywords)| ==>
                keywords == old(keywords)[..index] + old(keywords)[index + 1..]
      ensures !(0 <= index < |old(keywords)|) ==> keywords == old(keywords)
    {
      if 0 <= index < |keywords| {
        DropWellFormed(keywords, index);
        keywords := keywords[..index] + keywords[index + 1..];
      }
    }

    /** `handleKeyDown`: Enter adds the pending keyword; any other key does
        nothing. */
    method KeyDown(key: string)
      requires Valid()
      modifies this
      ensures Valid()
      ensures key == "Enter" ==>
                var t := Trim(old(keyword));
                if t != [] && t !in old(keywords) then
                  keywords == old(keywords) + [t] && keyword == ""
                else
                  keywords == old(keywords) && keyword == old(keyword)
      ensures key != "Enter" ==> keywords == old(keywords) && keyword == old(keyword)
    {
      if key == "Enter" {
        Add();
      }
    }

    /** The parent clearing the list (`setKeywords([])`). */
    method Clear()
      modifies this`keywords
      ensures keywords == []
      ensures Valid()
    {
      keywords := [];
    }
  }
}
