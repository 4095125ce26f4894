/**
 * Accumulation of the operator's annotated reference images into the
 * few-shot history (the "good" and "bad" loops of main in app.py).
 * Each upload slot is either empty or holds an encoded image with the
 * comment typed beside it; only slots with a non-empty comment contribute.
 */
module FewShot {
  import opened Messages
  import opened Analysis

  /** An uploaded reference image and its comment: one entry of good_images or bad_images. */
  datatype Sample = Sample(imageBase64: string, comment: string)

  /** One file-uploader slot: nothing uploaded, or an uploaded sample. */
  datatype Slot = NoUpload | Uploaded(sample: Sample)

  /** The number inputs cap the slots per label at this many. */
  const MaxExamplesPerLabel: nat := 5

  /**
   * A slot contributes when it holds an upload (the uploader's value is not
   * None) whose comment is truthy, that is, non-empty.
   */
  predicate Contributes(slot: Slot) {
    slot.Uploaded? && slot.sample.comment != ""
  }

  /** The messages one slot adds: the image-only user turn, then the comment as the assistant's answer. */
  function SlotTurns(slot: Slot): (r: seq<Message>)
    ensures |r| == if Contributes(slot) then 2 else 0
  {
    if Contributes(slot)
    then [ImageMessage(slot.sample.imageBase64), AnswerMessage(slot.sample.comment)]
    else []
  }

  /** The few-shot messages a sequence of slots adds, processed in index order. */
  function ExampleTurns(slots: seq<Slot>): (r: seq<Message>)
    ensures |r| == 2 * |Kept(slots)|
    decreases |slots|
  {
    if slots == [] then []
    else ExampleTurns(slots[..|slots| - 1]) + SlotTurns(slots[|slots| - 1])
  }

  /** The samples a sequence of slots records, in index order. */
  function Kept(slots: seq<Slot>): (r: seq<Sample>)
    ensures |r| <= |slots|
    ensures forall k :: 0 <= k < |r| ==> r[k].comment != ""
    decreases |slots|
  {
    if slots == [] then []
    else
      var last := slots[|slots| - 1];
      Kept(slots[..|slots| - 1]) + if Contributes(last) then [last.sample] else []
  }

  /**
   * The loop body shared by both loops: a slot with a non-empty comment
   * appends its two messages and its sample; any other slot changes nothing.
   */
  method ProcessSlot(fewShot: seq<Message>, images: seq<Sample>, slot: Slot)
    returns (fewShot': seq<Message>, images': seq<Sample>)
    ensures Contributes(slot) ==>
              && fewShot' == fewShot + [ImageMessage(slot.sample.imageBase64), AnswerMessage(slot.sample.comment)]
              && images' == images + [slot.sample]
    ensures !Contributes(slot) ==> fewShot' == fewShot && images' == images
  {
    fewShot', images' := fewShot, images;
    if slot.Uploaded? {
      var sample := slot.sample;
      if sample.comment != "" {
        fewShot' := fewShot' + [ImageMessage(sample.imageBase64)];
        fewShot' := fewShot' + [AnswerMessage(sample.comment)];
        images' := images' + [sample];
      }
    }
  }

  /**
   * One label's loop: every slot in index order, appending to the shared
   * few-shot list and to a fresh sample list for the label.
   */
  method CollectLabel(slots: seq<Slot>, fewShot: seq<Message>)
    returns (fewShot': seq<Message>, images: seq<Sample>)
    ensures fewShot' == fewShot + ExampleTurns(slots)
    ensures images == Kept(slots)
  {
    fewShot' := fewShot;
    images := [];
    for i := 0 to |slots|
      invariant fewShot' == fewShot + ExampleTurns(slots[..i])
      invariant images == Kept(slots[..i])
    {
      assert slots[..i + 1][..i] == slots[..i];
      fewShot', images := ProcessSlot(fewShot', images, slots[i]);
    }
    assert slots[..|slots|] == slots;
  }

  /**
   * Both loops: every good slot in order, then every bad slot in order,
   * appending to one few-shot list and to the per-label sample lists.
   */
  method CollectExamples(good: seq<Slot>, bad: seq<Slot>)
    returns (fewShot: seq<Message>, goodImages: seq<Sample>, badImages: seq<Sample>)
    ensures fewShot == ExampleTurns(good) + ExampleTurns(bad)
    ensures goodImages == Kept(good) && badImages == Kept(bad)
  {
    fewShot := [];
    fewShot, goodImages := CollectLabel(good, fewShot);
    fewShot, badImages := CollectLabel(bad, fewShot);
  }

  /**
   * The shape of the history one label yields: two messages per recorded
   * sample, the k-th sample's image turn at 2k and its answer at 2k+1.
   */
  lemma {:induction false} ExampleTurnsShape(slots: seq<Slot>)
    ensures |ExampleTurns(slots)| == 2 * |Kept(slots)|
    ensures forall k :: 0 <= k < |Kept(slots)| ==>
              && ExampleTurns(slots)[2 * k] == ImageMessage(Kept(slots)[k].imageBase64)
              && ExampleTurns(slots)[2 * k + 1] == AnswerMessage(Kept(slots)[k].comment)
    decreases |slots|
  {
    if slots != [] {
      ExampleTurnsShape(slots[..|slots| - 1]);
    }
  }

  /** Each recorded sample was uploaded in a slot with a non-empty comment, and there are no more of them than slots. */
  lemma {:induction false} KeptFromSlots(slots: seq<Slot>)
    ensures |Kept(slots)| <= |slots|
    ensures forall k :: 0 <= k < |Kept(slots)| ==>
              Uploaded(Kept(slots)[k]) in slots && Kept(slots)[k].comment != ""
    decreases |slots|
  {
    if slots != [] {
      var init := slots[..|slots| - 1];
      KeptFromSlots(init);
      forall k | 0 <= k < |Kept(init)| ensures Uploaded(Kept(init)[k]) in slots {
        assert Uploaded(Kept(init)[k]) in init;
      }
    }
  }

  /** Recording works on each part of a concatenated slot list separately, so it keeps slot order. */
  lemma {:induction false} KeptAppend(a: seq<Slot>, b: seq<Slot>)
    ensures Kept(a + b) == Kept(a) + Kept(b)
    decreases |b|
  {
    if b == [] {
      assert a + b == a;
    } else {
      assert (a + b)[..|a + b| - 1] == a + b[..|b| - 1];
      KeptAppend(a, b[..|b| - 1]);
    }
  }

  /** The few-shot messages of a concatenated slot list are those of each part, in order. */
  lemma {:induction false} ExampleTurnsAppend(a: seq<Slot>, b: seq<Slot>)
    ensures ExampleTurns(a + b) == ExampleTurns(a) + ExampleTurns(b)
    decreases |b|
  {
    if b == [] {
      assert a + b == a;
    } else {
      assert (a + b)[..|a + b| - 1] == a + b[..|b| - 1];
      ExampleTurnsAppend(a, b[..|b| - 1]);
    }
  }

  /**
   * Every slot with an upload and a non-empty comment is recorded, right
   * after the samples recorded from the slots before it.
   */
  lemma KeptComplete(slots: seq<Slot>, i: nat)
    requires i < |slots| && Contributes(slots[i])
    ensures |Kept(slots[..i])| < |Kept(slots)|
    ensures Kept(slots)[|Kept(slots[..i])|] == slots[i].sample
    ensures slots[i].sample in Kept(slots)
  {
    var upTo := slots[..i + 1];
    assert upTo[..i] == slots[..i];
    assert Kept(upTo) == Kept(slots[..i]) + [slots[i].sample];
    assert slots == upTo + slots[i + 1..];
    KeptAppend(upTo, slots[i + 1..]);
  }

  /** No few-shot message is a system message: users give images, the assistant answers. */
  lemma {:induction false} ExampleTurnsRoles(slots: seq<Slot>)
    ensures forall m :: m in ExampleTurns(slots) ==> m.role == User || m.role == Assistant
    decreases |slots|
  {
    if slots != [] {
      ExampleTurnsRoles(slots[..|slots| - 1]);
    }
  }

  /**
   * All good examples precede all bad ones and each group keeps index
   * order: the k-th recorded good sample sits at 2k and 2k+1, the k-th
   * recorded bad sample right after all good ones.
   */
  lemma GoodBeforeBad(good: seq<Slot>, bad: seq<Slot>)
    ensures var h := ExampleTurns(good) + ExampleTurns(bad);
            var g := Kept(good);
            var b := Kept(bad);
            && |h| == 2 * |g| + 2 * |b|
            && (forall k :: 0 <= k < |g| ==>
                  h[2 * k] == ImageMessage(g[k].imageBase64) && h[2 * k + 1] == AnswerMessage(g[k].comment))
            && (forall k :: 0 <= k < |b| ==>
                  h[2 * |g| + 2 * k] == ImageMessage(b[k].imageBase64)
                  && h[2 * |g| + 2 * k + 1] == AnswerMessage(b[k].comment))
  {
    ExampleTurnsShape(good);
    ExampleTurnsShape(bad);
  }

  /** With at most five slots per label, the history has at most 20 messages and the request at most 22. */
  lemma RequestSizeBound(good: seq<Slot>, bad: seq<Slot>, imageBase64: string, prompt: string)
    requires |good| <= MaxExamplesPerLabel && |bad| <= MaxExamplesPerLabel
    ensures |ExampleTurns(good) + ExampleTurns(bad)| <= 20
    ensures |AssembleMessages(imageBase64, ExampleTurns(good) + ExampleTurns(bad), prompt)| <= 22
  {
    ExampleTurnsShape(good);
    ExampleTurnsShape(bad);
    KeptFromSlots(good);
    KeptFromSlots(bad);
  }

  /** A request built from collected examples has exactly one system message, the first. */
  lemma OnlyFirstIsSystem(good: seq<Slot>, bad: seq<Slot>, imageBase64: string, prompt: string)
    ensures var r := AssembleMessages(imageBase64, ExampleTurns(good) + ExampleTurns(bad), prompt);
            r[0].role == System && forall i :: 0 < i < |r| ==> r[i].role != System
  {
    var h := ExampleTurns(good) + ExampleTurns(bad);
    var r := AssembleMessages(imageBase64, h, prompt);
    ExampleTurnsRoles(good);
    ExampleTurnsRoles(bad);
    forall i | 0 < i < |r| ensures r[i].role != System {
      if i < |r| - 1 {
        assert r[i] == h[i - 1];
        assert r[i] in h;
      }
    }
  }
}
