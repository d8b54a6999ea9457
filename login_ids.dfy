/**
 * Access codes for users (src/lib/generate-login-id.ts): six characters from
 * an alphabet without the look-alikes 0/O and 1/I/L.
 */
module LoginIds {
  import opened Text

  const Alphabet: string := "ABCDEFGHJKMNPQRSTUVWXYZ23456789"
  const Length: nat := 6

  predicate IsLoginId(s: string) {
    |s| == Length && forall i :: 0 <= i < |s| ==> s[i] in Alphabet
  }

  /**
   * `customAlphabet(Alphabet, 6)()`: the random generator draws six positions
   * into the alphabet; the draws are the parameter.
   */
  function GenerateLoginId(draws: seq<nat>): (id: string)
    requires |draws| == Length
    requires forall i :: 0 <= i < |draws| ==> draws[i] < |Alphabet|
    ensures IsLoginId(id)
  {
    seq(Length, i requires 0 <= i < Length => Alphabet[draws[i]])
  }

  /** Every alphabet character is an upper-case letter or a digit. */
  lemma AlphabetIsUpperAlphanumeric(c: char)
    requires c in Alphabet
    ensures IsUpperLetter(c) || IsDigit(c)
  {
    var i :| 0 <= i < |Alphabet| && Alphabet[i] == c;
  }

  /** The alphabet has 31 characters. */
  lemma AlphabetSize()
    ensures |Alphabet| == 31
  {
  }

  /** The alphabet leaves out the look-alikes 0, O, 1, I and L. */
  lemma AlphabetOmitsLookAlikes(c: char)
    requires c in Alphabet
    ensures c != '0' && c != 'O' && c != '1' && c != 'I' && c != 'L'
  {
    var i :| 0 <= i < |Alphabet| && Alphabet[i] == c;
  }

  /** Upper-casing a generated id leaves it unchanged. */
  lemma UpperFixesLoginId(s: string)
    requires IsLoginId(s)
    ensures Upper(s) == s
  {
    forall i | 0 <= i < |s|
      ensures Upper(s)[i] == s[i]
    {
      AlphabetIsUpperAlphanumeric(s[i]);
    }
  }

  /**
   * What the login route does with a typed id (upper-case, then trim) recovers
   * the stored id from any mix of letter case and surrounding white space.
   */
  lemma TypedLoginIdNormalises(id: string, typed: string, pre: string, post: string)
    requires IsLoginId(id) && Upper(typed) == id
    requires AllSpace(pre) && AllSpace(post)
    ensures Trim(Upper(pre + typed + post)) == id
  {
    UpperConcat(pre + typed, post);
    UpperConcat(pre, typed);
    UpperKeepsSpace(pre);
    UpperKeepsSpace(post);
    assert Upper(pre + typed + post) == pre + id + post;
    LoginIdHasNoEdgeSpace(id);
    TrimAround(pre, id, post);
  }

  /** A generated id neither starts nor ends with white space. */
  lemma LoginIdHasNoEdgeSpace(id: string)
    requires IsLoginId(id)
    ensures id != [] && !IsSpace(id[0]) && !IsSpace(id[|id| - 1])
  {
    AlphabetIsUpperAlphanumeric(id[0]);
    AlphabetIsUpperAlphanumeric(id[Length - 1]);
  }
}
