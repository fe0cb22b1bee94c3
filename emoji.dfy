/** `auto_emoji`: decorates an assistant reply with one emoji per keyword it mentions. */
module Emoji {
  import opened Text

  /** The entries of the `keywords` dictionary. The emoji strings are the characters
      that Chatbot.py holds at these places: each is the UTF-8 encoding of an emoji
      read back as Windows-1252 text, with the bytes that code page leaves undefined
      missing. The intended emoji are named beside them. */
  const Happy: (string, string) := ("happy", "\U{F0}\U{178}\U{2DC}\U{201E}")  // grinning face with smiling eyes
  const Sad: (string, string) := ("sad", "\U{F0}\U{178}\U{2DC}\U{A2}")        // crying face
  const Love: (string, string) := ("love", "\U{E2}\U{A4}\U{EF}\U{B8}")         // red heart
  const Wow: (string, string) := ("wow", "\U{F0}\U{178}\U{2DC}\U{B2}")        // astonished face
  const Fun: (string, string) := ("fun", "\U{F0}\U{178}\U{17D}\U{2030}")      // party popper
  const Game: (string, string) := ("game", "\U{F0}\U{178}\U{17D}\U{AE}")      // video game
  const Thanks: (string, string) := ("thanks", "\U{F0}\U{178}\U{2122}")        // folded hands
  const Yes: (string, string) := ("yes", "\U{F0}\U{178}\U{2018}")             // thumbs up
  const No: (string, string) := ("no", "\U{E2}\U{152}")                       // cross mark

  /** The `keywords` dictionary, in its insertion order. */
  const Keywords: seq<(string, string)> := [Happy, Sad, Love, Wow, Fun, Game, Thanks, Yes, No]

  /** One pass of the loop: append " " and the emoji when the keyword occurs in the
      lower-cased text accumulated so far. */
  function Mark(text: string, entry: (string, string)): string
  {
    if Contains(Lower(text), entry.0) then text + " " + entry.1 else text
  }

  /** The loop of `auto_emoji` over `table`, one entry after another. */
  function Decorate(text: string, table: seq<(string, string)>): string
    decreases |table|
  {
    if table == [] then text else Decorate(Mark(text, table[0]), table[1..])
  }

  /** `auto_emoji(text)`. */
  method AutoEmoji(text: string) returns (r: string)
    ensures r == Decorate(text, Keywords)
  {
    r := text;
    var i := 0;
    while i < |Keywords|
      invariant 0 <= i <= |Keywords|
      invariant Decorate(r, Keywords[i..]) == Decorate(text, Keywords)
    {
      var (word, em) := Keywords[i];
      if Contains(Lower(r), word) {
        r := r + " " + em;
      }
      i := i + 1;
    }
  }

  /** An independent description of what the loop adds: " " and the emoji of every
      entry whose keyword occurs in `lowered`, in table order. */
  function Badges(lowered: string, table: seq<(string, string)>): string
    decreases |table|
  {
    if table == [] then ""
    else (if Contains(lowered, table[0].0) then " " + table[0].1 else "") + Badges(lowered, table[1..])
  }

  /** Tables whose keywords are words and whose emoji, with their leading space, hold
      no character that lower-cases to a letter a-z. */
  predicate WellFormedTable(table: seq<(string, string)>)
  {
    forall k :: 0 <= k < |table| ==> IsWord(table[k].0) && LetterFree(" " + table[k].1)
  }

  lemma KeywordsWellFormed()
    ensures WellFormedTable(Keywords)
  {
  }

  /** What a well-formed table adds does not depend on letter-free text appended
      earlier. */
  lemma {:induction false} BadgesIgnoreLetterFree(t: string, u: string, table: seq<(string, string)>)
    requires WellFormedTable(table) && LetterFree(u)
    ensures Badges(Lower(t + u), table) == Badges(Lower(t), table)
    decreases |table|
  {
    if table != [] {
      LetterFreeAppendKeepsWords(t, u, table[0].0);
      BadgesIgnoreLetterFree(t, u, table[1..]);
    }
  }

  lemma WellFormedTail(table: seq<(string, string)>)
    requires WellFormedTable(table) && table != []
    ensures WellFormedTable(table[1..])
    ensures IsWord(table[0].0) && LetterFree(" " + table[0].1)
  {
    forall k | 0 <= k < |table| - 1 ensures IsWord(table[1..][k].0) && LetterFree(" " + table[1..][k].1) {
      assert table[1..][k] == table[k + 1];
    }
  }

  /** Associativity of `+` for one step of DecorateIsBadges. It is a lemma over plain
      variables so that the solver proves it without unfolding Decorate, Badges and
      Lower; stated inline on those terms the step is far more costly to prove. */
  lemma StepAlgebra(d: string, next: string, text: string, mine: string, later: string, all: string)
    requires d == next + later && next == text + mine && all == mine + later
    ensures d == text + all
  {
  }

  /** Decorating with a well-formed table appends exactly the badges of the keywords
      found in the ORIGINAL text: the emoji the loop appends never make a later
      keyword match. */
  lemma {:induction false} DecorateIsBadges(text: string, table: seq<(string, string)>)
    requires WellFormedTable(table)
    ensures Decorate(text, table) == text + Badges(Lower(text), table)
    decreases |table|
  {
    if table != [] {
      var w, e, rest := table[0].0, table[0].1, table[1..];
      WellFormedTail(table);
      var next := Mark(text, table[0]);
      DecorateIsBadges(next, rest);
      var mine := if Contains(Lower(text), w) then " " + e else "";
      assert next == text + mine;
      assert Badges(Lower(next), rest) == Badges(Lower(text), rest) by {
        if mine != "" {
          BadgesIgnoreLetterFree(text, mine, rest);
        }
      }
      assert Badges(Lower(text), table) == mine + Badges(Lower(text), rest);
      assert Decorate(text, table) == Decorate(next, rest);
      StepAlgebra(Decorate(text, table), next, text, mine, Badges(Lower(text), rest), Badges(Lower(text), table));
    }
  }

  /** `auto_emoji` keeps its input as a prefix and appends, in table order, " " and the
      emoji of each keyword that occurs in the lower-cased input. */
  lemma AutoEmojiAppendsBadges(text: string)
    ensures Decorate(text, Keywords) == text + Badges(Lower(text), Keywords)
    ensures text <= Decorate(text, Keywords)
  {
    KeywordsWellFormed();
    DecorateIsBadges(text, Keywords);
  }

  /** No badges exactly when no keyword occurs. */
  lemma {:induction false} BadgesEmptyIff(lowered: string, table: seq<(string, string)>)
    ensures Badges(lowered, table) == "" <==>
      forall k :: 0 <= k < |table| ==> !Contains(lowered, table[k].0)
    decreases |table|
  {
    if table != [] {
      BadgesEmptyIff(lowered, table[1..]);
      assert forall k :: 1 <= k < |table| ==> table[k] == table[1..][k - 1];
    }
  }

  /** `auto_emoji` returns its input unchanged exactly when the lower-cased input holds
      none of the keywords. */
  lemma AutoEmojiUnchangedIff(text: string)
    ensures Decorate(text, Keywords) == text <==>
      forall k :: 0 <= k < |Keywords| ==> !Contains(Lower(text), Keywords[k].0)
  {
    AutoEmojiAppendsBadges(text);
    BadgesEmptyIff(Lower(text), Keywords);
    assert Decorate(text, Keywords) == text <==> Badges(Lower(text), Keywords) == "";
  }
}
