/** Which messages read as compaction checkpoints. */
module Checkpoints {
  import opened Text
  import opened Transcript
  import opened LiveContext

  /** After white space, if any, the text begins with these words. */
  ghost predicate Begins(text: string, words: string) {
    exists i: nat :: BeginsAt(text, words, i)
  }

  predicate BeginsAt(text: string, words: string, i: nat) {
    i <= |text| && Blank(text[..i]) && words <= text[i..]
  }

  lemma {:induction false} BeginsAfterSpace(text: string, words: string, i: nat)
    requires words != "" && !IsJsSpace(words[0]) && BeginsAt(text, words, i)
    ensures i > 0 <==> text != "" && IsJsSpace(text[0])
  {
    if i > 0 {
      assert text[..i][0] == text[0];
    } else {
      assert text[0..] == text && text[0] == words[0];
    }
  }

  lemma {:induction false} OneSpaceLess(text: string, words: string, i: nat)
    requires text != "" && IsJsSpace(text[0])
    ensures BeginsAt(text[1..], words, i) <==> BeginsAt(text, words, i + 1)
  {
    if i < |text| {
      assert text[..i + 1] == [text[0]] + text[1..][..i] && text[i + 1..] == text[1..][i..];
      assert forall k :: 0 <= k < i ==> text[1..][..i][k] == text[..i + 1][k + 1];
    }
  }

  lemma {:induction false} TrimStartBegins(text: string, words: string)
    requires words != "" && !IsJsSpace(words[0])
    ensures words <= TrimStart(text) <==> Begins(text, words)
  {
    if text != "" && IsJsSpace(text[0]) {
      TrimStartBegins(text[1..], words);
      if i: nat :| BeginsAt(text[1..], words, i) { OneSpaceLess(text, words, i); }
      if i: nat :| BeginsAt(text, words, i) {
        BeginsAfterSpace(text, words, i);
        OneSpaceLess(text, words, i - 1);
      }
    } else {
      assert text[..0] == "" && text[0..] == text;
      assert words <= text <==> BeginsAt(text, words, 0);
      if i: nat :| BeginsAt(text, words, i) { BeginsAfterSpace(text, words, i); }
    }
  }

  /** A message reads as a checkpoint exactly if it is titled as one, or is a user message that begins like one,
      after white space. */
  lemma {:induction false} CheckpointIff(m: Message)
    ensures IsCheckpoint(m) <==>
            || m.displayName == Some("Compaction Summary")
            || (m.role == User && (Begins(m.content, "<compacted-summary>") ||
                                   Begins(m.content, "This is an automatically generated checkpoint")))
  {
    assert "This is"[0] == 'T';
    assert SUMMARY_TAG[0] == '<' && PREAMBLE[0] == 'T';
    TrimStartBegins(m.content, SUMMARY_TAG);
    TrimStartBegins(m.content, PREAMBLE);
  }
}
