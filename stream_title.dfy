/**
 * The "now playing" lookup applied to each completed ICY metadata block
 * (src/input.rs:70-82): the block is decoded as UTF-8 (an invalid block counts
 * as empty text), and the title is the text between the first
 * `StreamTitle='` and the next `'`. A found title is published as
 * `Current Song: <title>`; otherwise the published title stays as it was.
 */
module StreamTitle {
  import opened Common
  import Utf8

  const KEY: string := "StreamTitle='"
  const SONG_PREFIX: string := "Current Song: "

  predicate OccursAt(s: string, i: nat, w: string) {
    i + |w| <= |s| && s[i..i + |w|] == w
  }

  /** `i` is where `str::find` reports `w` in `s`: an occurrence with none before it. */
  predicate IsFirstOccurrence(s: string, w: string, i: nat) {
    OccursAt(s, i, w) && forall k :: 0 <= k < i ==> !OccursAt(s, k, w)
  }

  /** The first occurrence of `w` in `s` at or after `from`. */
  function FindFrom(s: string, w: string, from: nat): (r: Option<nat>)
    decreases |s| - from
    ensures r.Some? ==> from <= r.value && OccursAt(s, r.value, w)
    ensures r.Some? ==> forall k :: from <= k < r.value ==> !OccursAt(s, k, w)
    ensures r.None? ==> forall k :: from <= k ==> !OccursAt(s, k, w)
  {
    if from + |w| > |s| then None
    else if s[from..from + |w|] == w then Some(from)
    else FindFrom(s, w, from + 1)
  }

  /** `str::find`: the index of the first occurrence of `w` in `s`, if any. */
  function Find(s: string, w: string): (r: Option<nat>)
    ensures r.Some? ==> IsFirstOccurrence(s, w, r.value)
    ensures r.None? <==> forall k :: !OccursAt(s, k, w)
  {
    FindFrom(s, w, 0)
  }

  lemma FirstOccurrenceUnique(s: string, w: string, i: nat, j: nat)
    requires IsFirstOccurrence(s, w, i) && IsFirstOccurrence(s, w, j)
    ensures i == j
  {
  }

  /** The title text carried by a decoded metadata block, if it carries one. */
  function ExtractTitle(text: string): (r: Option<string>)
    ensures r.Some? ==> '\'' !in r.value
    ensures r.Some? ==> exists i: nat :: IsFirstOccurrence(text, KEY, i) && r.value + "'" <= text[i + |KEY|..]
    ensures r.Some? <==> exists i: nat :: IsFirstOccurrence(text, KEY, i) && '\'' in text[i + |KEY|..]
  {
    if text == [] then None
    else
      match Find(text, KEY)
      case None => None
      case Some(i) =>
        var rest := text[i + |KEY|..];
        match Find(rest, "'")
        case None =>
          assert forall k :: 0 <= k < |rest| ==> !OccursAt(rest, k, "'") && rest[k..k + 1] == [rest[k]];
          forall j: nat | IsFirstOccurrence(text, KEY, j) ensures '\'' !in text[j + |KEY|..] {
            FirstOccurrenceUnique(text, KEY, i, j);
          }
          None
        case Some(j) =>
          assert rest[..j] + "'" == rest[..j + 1];
          assert rest[j..j + 1] == [rest[j]];
          assert forall k :: 0 <= k < j ==> !OccursAt(rest, k, "'") && rest[k..k + 1] == [rest[k]];
          Some(rest[..j])
  }

  /** Text before the key that has no quote cannot hold an earlier occurrence of the key. */
  lemma KeyFirstAfterQuoteFree(pre: string, tail: string)
    requires '\'' !in pre
    ensures IsFirstOccurrence(pre + KEY + tail, KEY, |pre|)
  {
    var text := pre + KEY + tail;
    var i := |pre|;
    assert text[i..i + |KEY|] == KEY;
    forall k | 0 <= k < i ensures !OccursAt(text, k, KEY) {
      // an occurrence at k would put the key's closing quote inside `pre` or inside the key's first 12 characters
      assert text[k + 12] != '\'' by {
        if k + 12 < i {
          assert text[k + 12] == pre[k + 12];
        } else {
          assert text[k + 12] == KEY[k + 12 - i];
        }
      }
      assert text[k..k + |KEY|][12] == text[k + 12];
    }
  }

  /** In quote-free text followed by a quote, the first quote is the one after the text. */
  lemma QuoteFirstAfterQuoteFree(title: string, post: string)
    requires '\'' !in title
    ensures IsFirstOccurrence(title + "'" + post, "'", |title|)
  {
    var rest := title + "'" + post;
    assert rest[|title|..|title| + 1] == "'";
    forall k | 0 <= k < |title| ensures !OccursAt(rest, k, "'") {
      assert rest[k..k + 1] == [title[k]];
    }
  }

  /**
   * Round trip: a title written after `StreamTitle='` and closed by `'` is
   * read back, whatever follows it and whatever quote-free text precedes it.
   */
  lemma ExtractWrittenTitle(pre: string, title: string, post: string)
    requires '\'' !in pre && '\'' !in title
    ensures ExtractTitle(pre + KEY + title + "'" + post) == Some(title)
  {
    var text := pre + KEY + title + "'" + post;
    assert text == pre + KEY + (title + "'" + post);
    KeyFirstAfterQuoteFree(pre, title + "'" + post);
    var i := Find(text, KEY).value;
    FirstOccurrenceUnique(text, KEY, i, |pre|);
    var rest := text[i + |KEY|..];
    assert rest == title + "'" + post;
    QuoteFirstAfterQuoteFree(title, post);
    var j := Find(rest, "'").value;
    FirstOccurrenceUnique(rest, "'", j, |title|);
    assert rest[..j] == title;
  }

  /** `std::str::from_utf8(&metadata).unwrap_or("")`, then the title lookup. */
  function BlockTitle(block: seq<byte>): (r: Option<string>)
    // a title comes only from a valid UTF-8 block, and is quote-free
    ensures r.Some? ==> Utf8.Decode(block).Some? && '\'' !in r.value
    // the block holds the key, the title and the closing quote
    ensures r.Some? ==> |KEY| + |r.value| + 1 <= |block|
  {
    ExtractTitle(Utf8.Decode(block).GetOr(""))
  }

  /** The published title after a completed metadata block. */
  function NextTitle(title: string, block: seq<byte>): (r: string)
    // the title is kept, or replaced by `Current Song: ` and a quote-free title from the block
    ensures r == title || (SONG_PREFIX <= r && '\'' !in r[|SONG_PREFIX|..])
    ensures r != title ==> BlockTitle(block).Some?
  {
    match BlockTitle(block)
    case Some(t) => SONG_PREFIX + t
    case None => title
  }

  /** An encoded `StreamTitle='<t>'` entry publishes `Current Song: <t>`. */
  lemma NextTitleOfEncodedBlock(title: string, pre: string, t: string, post: string)
    requires '\'' !in pre && '\'' !in t
    ensures NextTitle(title, Utf8.Encode(pre + KEY + t + "'" + post)) == SONG_PREFIX + t
  {
    Utf8.DecodeEncode(pre + KEY + t + "'" + post);
    ExtractWrittenTitle(pre, t, post);
  }

  /** A block that is not valid UTF-8, or that has no closed `StreamTitle='` entry, leaves the title alone. */
  lemma NextTitleUnchanged(title: string, block: seq<byte>)
    requires Utf8.Decode(block).None? || forall i: nat :: IsFirstOccurrence(Utf8.Decode(block).value, KEY, i) ==> '\'' !in Utf8.Decode(block).value[i + |KEY|..]
    ensures NextTitle(title, block) == title
  {
    if Utf8.Decode(block).None? {
      assert !OccursAt("", 0, KEY);
    }
  }
}
