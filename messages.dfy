/**
  * The two pure computations inside the background transcription worker of
  * main.py: the clipboard preview shown in the "Copied!" notification, and
  * the classification of a transcription error message.
  */
module Messages {

  /** Characters of the transcribed text shown in the notification. */
  const PREVIEW_LENGTH := 80
  const ELLIPSIS := "..."
  /** What replaces any error message that looks like a credentials problem. */
  const INVALID_KEY_MESSAGE := "Invalid API key. Please update it via the tray menu."

  /** The first 80 characters of the text, with "..." appended when something was cut off. */
  function Preview(text: string): (r: string)
    ensures |text| <= PREVIEW_LENGTH ==> r == text
    ensures |text| > PREVIEW_LENGTH ==>
              |r| == PREVIEW_LENGTH + |ELLIPSIS| && r[..PREVIEW_LENGTH] == text[..PREVIEW_LENGTH] &&
              r[PREVIEW_LENGTH..] == ELLIPSIS
  {
    if |text| > PREVIEW_LENGTH then text[..PREVIEW_LENGTH] + ELLIPSIS else text
  }

  /** A sentence of 102 characters is cut after "previ" and marked with the ellipsis. */
  lemma LongSentencePreview()
    ensures var text := "hello world, this is a much longer sentence than eighty characters to test preview truncation behavior";
            |text| == 102 &&
            Preview(text) == "hello world, this is a much longer sentence than eighty characters to test previ..."
  {
    var text := "hello world, this is a much longer sentence than eighty characters to test preview truncation behavior";
    var head := "hello world, this is a much longer sentence than eighty characters to test previ";
    assert text[..PREVIEW_LENGTH] == head;
  }

  /** ASCII lower-casing of one character. */
  function LowerChar(c: char): char
  {
    if 'A' <= c <= 'Z' then (c as int - 'A' as int + 'a' as int) as char else c
  }

  /** The lower-case form of a message, character by character. */
  function Lower(s: string): string
  {
    seq(|s|, i requires 0 <= i < |s| => LowerChar(s[i]))
  }

  /** `needle` occurs in `hay` starting at position `i`. */
  ghost predicate OccursAt(hay: string, needle: string, i: nat)
  {
    i + |needle| <= |hay| && hay[i..i + |needle|] == needle
  }

  /** Python's `needle in hay`, scanning the positions from left to right. */
  function Contains(hay: string, needle: string): bool
    decreases |hay|
  {
    if |needle| > |hay| then false
    else if hay[..|needle|] == needle then true
    else Contains(hay[1..], needle)
  }

  /** The scan finds the needle exactly when it occurs at some position. */
  lemma {:induction false} ContainsIff(hay: string, needle: string)
    ensures Contains(hay, needle) <==> exists i: nat :: OccursAt(hay, needle, i)
    decreases |hay|
  {
    if |needle| > |hay| {
      forall i: nat ensures !OccursAt(hay, needle, i) { }
    } else if hay[..|needle|] == needle {
      assert OccursAt(hay, needle, 0);
    } else {
      ContainsIff(hay[1..], needle);
      if Contains(hay[1..], needle) {
        var i: nat :| OccursAt(hay[1..], needle, i);
        assert hay[1..][i..i + |needle|] == hay[i + 1..i + 1 + |needle|];
        assert OccursAt(hay, needle, i + 1);
      } else {
        forall i: nat ensures !OccursAt(hay, needle, i) {
          if i == 0 {
            assert hay[0..|needle|] == hay[..|needle|];
          } else if i + |needle| <= |hay| {
            assert hay[1..][i - 1..i - 1 + |needle|] == hay[i..i + |needle|];
            assert !OccursAt(hay[1..], needle, i - 1);
          }
        }
      }
    }
  }

  /** The lower-case form of the message contains `word`. */
  ghost predicate Mentions(msg: string, word: string)
  {
    exists i: nat :: OccursAt(Lower(msg), word, i)
  }

  /**
    * An error message is replaced by the fixed invalid-key message exactly
    * when its lower-case form contains "auth" or "api key"; otherwise it is
    * shown as it is.
    */
  function ClassifyError(msg: string): (r: string)
    ensures r == (if Mentions(msg, "auth") || Mentions(msg, "api key") then INVALID_KEY_MESSAGE else msg)
  {
    ContainsIff(Lower(msg), "auth");
    ContainsIff(Lower(msg), "api key");
    var lower := Lower(msg);
    if Contains(lower, "auth") || Contains(lower, "api key") then INVALID_KEY_MESSAGE else msg
  }

  /** An occurrence inside an occurrence is an occurrence. */
  lemma OccursWithin(hay: string, outer: string, i: nat, inner: string, k: nat)
    requires OccursAt(hay, outer, i) && OccursAt(outer, inner, k)
    ensures OccursAt(hay, inner, i + k)
  {
    forall j | 0 <= j < |inner| ensures hay[i + k + j] == inner[j] {
      assert inner[j] == outer[k + j];
      assert outer[k + j] == hay[i + k + j];
    }
  }

  /** Lower-casing commutes with taking a slice. */
  lemma LowerSlice(s: string, a: nat, b: nat)
    requires a <= b <= |s|
    ensures Lower(s)[a..b] == Lower(s[a..b])
  {
  }

  /** Any capitalisation of "invalid api key" in a message yields the fixed message. */
  lemma InvalidApiKeyPhrase(msg: string, i: nat)
    requires OccursAt(Lower(msg), "invalid api key", i)
    ensures ClassifyError(msg) == INVALID_KEY_MESSAGE
  {
    assert OccursAt("invalid api key", "api key", 8);
    OccursWithin(Lower(msg), "invalid api key", i, "api key", 8);
  }

  /** The fixed message contains "API key" at position 8. */
  lemma KeyPhraseInFixedMessage()
    ensures OccursAt(Lower(INVALID_KEY_MESSAGE), "api key", 8)
  {
    var fixed := INVALID_KEY_MESSAGE;
    assert fixed[8..15] == "API key" by {
      assert fixed[8] == 'A' && fixed[9] == 'P' && fixed[10] == 'I' && fixed[11] == ' ';
      assert fixed[12] == 'k' && fixed[13] == 'e' && fixed[14] == 'y';
    }
    LowerSlice(fixed, 8, 15);
    assert Lower("API key") == "api key";
  }

  /** The fixed message itself mentions "api key", so it is left as it is. */
  lemma InvalidKeyMessageStable()
    ensures ClassifyError(INVALID_KEY_MESSAGE) == INVALID_KEY_MESSAGE
  {
    KeyPhraseInFixedMessage();
  }

  /** Classifying an already classified message changes nothing. */
  lemma ClassifyIdempotent(msg: string)
    ensures ClassifyError(ClassifyError(msg)) == ClassifyError(msg)
  {
    if ClassifyError(msg) == INVALID_KEY_MESSAGE {
      InvalidKeyMessageStable();
    }
  }

  /** A word cannot occur in a text that lacks its first letter. */
  lemma AbsentFirstLetter(hay: string, word: string)
    requires |word| > 0 && forall j :: 0 <= j < |hay| ==> hay[j] != word[0]
    ensures forall i: nat :: !OccursAt(hay, word, i)
  {
    forall i: nat ensures !OccursAt(hay, word, i) {
      if i + |word| <= |hay| {
        assert hay[i..i + |word|][0] == hay[i];
      }
    }
  }

  /** A message without the letter "a" in any case cannot look like a credentials problem. */
  lemma NoLetterAVerbatim(msg: string)
    requires forall i :: 0 <= i < |msg| ==> LowerChar(msg[i]) != 'a'
    ensures ClassifyError(msg) == msg
  {
    AbsentFirstLetter(Lower(msg), "auth");
    AbsentFirstLetter(Lower(msg), "api key");
  }
}
