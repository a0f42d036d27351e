/**
 * Participant ids (src/utils/idGenerator.ts): the group digit, a dash and
 * five characters from an alphabet without look-alike letters and digits.
 * `Math.random()` is replaced by the given draws, each an index into the
 * alphabet.
 */
module IdGenerator {
  import opened Wrappers
  import opened StudyTypes

  const ALPHABET: string := "ABCDEFGHJKLMNPQRSTUVWXYZ23456789"

  /** The look-alike characters the ids avoid. */
  predicate Unambiguous(c: char) { c != 'I' && c != 'O' && c != '0' && c != '1' }

  /** The alphabet has 32 characters and leaves out I, O, 0 and 1. */
  lemma AlphabetShape()
    ensures |ALPHABET| == 32
    ensures forall i :: 0 <= i < |ALPHABET| ==> Unambiguous(ALPHABET[i])
    ensures 'I' !in ALPHABET && 'O' !in ALPHABET && '0' !in ALPHABET && '1' !in ALPHABET
  {
    forall i | 0 <= i < |ALPHABET| ensures Unambiguous(ALPHABET[i]) {
      if i < 8 { } else if i < 16 { } else if i < 24 { } else { }
    }
  }

  /** Every draw is `Math.floor(Math.random() * 32)`, so an index into the alphabet. */
  predicate ValidDraws(draws: seq<int>) {
    forall i :: 0 <= i < |draws| ==> 0 <= draws[i] < |ALPHABET|
  }

  /** The characters the draws pick. */
  function Picked(draws: seq<int>): (s: string)
    requires ValidDraws(draws)
    ensures |s| == |draws|
    ensures forall i :: 0 <= i < |s| ==> s[i] in ALPHABET
  {
    seq(|draws|, i requires 0 <= i < |draws| => ALPHABET[draws[i]])
  }

  /** `generateRandomString`: one picked character appended per round. */
  method GenerateRandomString(length: nat, draws: seq<int>) returns (result: string)
    requires |draws| >= length && ValidDraws(draws)
    ensures result == Picked(draws[..length])
    ensures |result| == length
    ensures forall i :: 0 <= i < |result| ==> result[i] in ALPHABET
  {
    result := "";
    var i := 0;
    while i < length
      invariant 0 <= i <= length
      invariant result == Picked(draws[..i])
    {
      result := result + [ALPHABET[draws[i]]];
      i := i + 1;
    }
  }

  /** `generateUserID`: `${group}-${five characters}`. */
  method GenerateUserID(group: Group, draws: seq<int>) returns (id: string)
    requires |draws| >= 5 && ValidDraws(draws)
    ensures id == UserId(group, draws[..5])
  {
    var randomPart := GenerateRandomString(5, draws);
    id := group.Text() + "-" + randomPart;
  }

  /** The id built from a group and five draws. */
  function UserId(group: Group, draws: seq<int>): (id: string)
    requires |draws| == 5 && ValidDraws(draws)
    ensures |id| == 7 && id[1] == '-' && id[2..] == Picked(draws)
    ensures forall i :: 2 <= i < 7 ==> id[i] in ALPHABET
  {
    group.Text() + "-" + Picked(draws)
  }

  /** The group an id belongs to, read from its first character. */
  function GroupOf(id: string): (g: Option<Group>)
  {
    if |id| > 0 && id[0] == '0' then Some(G0)
    else if |id| > 0 && id[0] == '1' then Some(G1)
    else None
  }

  /** The group can be read back from the id. */
  lemma UserIdGroup(group: Group, draws: seq<int>)
    requires |draws| == 5 && ValidDraws(draws)
    ensures GroupOf(UserId(group, draws)) == Some(group)
  {
    var id := UserId(group, draws);
    assert id[0] == group.Text()[0];
  }

  /** Ids of the two groups never coincide, whatever was drawn. */
  lemma UserIdsOfGroupsDiffer(d0: seq<int>, d1: seq<int>)
    requires |d0| == 5 && ValidDraws(d0) && |d1| == 5 && ValidDraws(d1)
    ensures UserId(G0, d0) != UserId(G1, d1)
  {
    UserIdGroup(G0, d0);
    UserIdGroup(G1, d1);
  }
}
