/**
 * The preview player `GetSocialCapturePreview`: it copies the stored frames
 * into textures and shows them one after another. Time is abstracted as the
 * integer tick `(int)((Time.time - start) * playbackFrameRate)`.
 */
module CapturePreview {
  import opened Wrappers
  import opened Frames

  /** An engine texture, made from a stored frame by copying its size and pixels. */
  datatype Texture = Texture(width: int, height: int, pixels: seq<Color32>)

  function TextureOf(f: Frame): Texture
  {
    Texture(f.width, f.height, f.data)
  }

  /** The textures `Init` builds from `frames`: one per frame, in order. */
  function Textures(frames: seq<Frame>): (ts: seq<Texture>)
    ensures |ts| == |frames|
    ensures forall i :: 0 <= i < |frames| ==> ts[i] == TextureOf(frames[i])
  {
    if |frames| == 0 then [] else Textures(frames[..|frames| - 1]) + [TextureOf(frames[|frames| - 1])]
  }

  /** The index of the frame shown at `tick` among `count` frames. */
  function FrameIndex(tick: nat, count: nat): (i: nat)
    requires count > 0
    ensures i < count
    ensures tick < count ==> i == tick
  {
    tick % count
  }

  class GetSocialCapturePreview {
    var playbackFrameRate: int
    var loopPlayback: bool

    /** Whether the raw image component exists, and the texture it shows. */
    var hasRawImage: bool
    var shownTexture: Option<Texture>

    var framesToPlay: Option<seq<Texture>>
    var play: bool
    var previewInitialized: bool

    const store: FrameStore

    /** The stored frames the textures in `framesToPlay` were copied from. */
    ghost var copiedFrom: seq<Frame>

    ghost predicate Valid()
      reads this
    {
      && (previewInitialized ==> framesToPlay.Some?)
      && (framesToPlay.Some? ==> framesToPlay.value == Textures(copiedFrom))
    }

    constructor (store: FrameStore, hasRawImage: bool)
      ensures Valid() && this.store == store && this.hasRawImage == hasRawImage
      ensures playbackFrameRate == 30 && loopPlayback
      ensures shownTexture == None && framesToPlay == None && !play && !previewInitialized
    {
      this.store := store;
      this.hasRawImage := hasRawImage;
      playbackFrameRate, loopPlayback := 30, true;
      shownTexture, framesToPlay, play, previewInitialized := None, None, false, false;
      copiedFrom := [];
    }

    /** Starts playback, rebuilding the textures when not yet built or when forced. */
    method Play(forceReinit: bool := true)
      requires Valid()
      modifies this`framesToPlay, this`play, this`previewInitialized, this`copiedFrom
      ensures Valid() && play && previewInitialized
      ensures if !old(previewInitialized) || forceReinit
              then framesToPlay == Some(Textures(store.storedFrames)) && copiedFrom == store.storedFrames
              else framesToPlay == old(framesToPlay) && copiedFrom == old(copiedFrom)
    {
      if !previewInitialized || forceReinit {
        Init();
      }
      play := true;
    }

    method Stop()
      modifies this`play
      ensures !play
    {
      play := false;
    }

    method StopAndClearFrames()
      requires Valid()
      modifies this`play, this`shownTexture, this`framesToPlay, this`previewInitialized, this`copiedFrom
      ensures Valid() && !play && !previewInitialized
      ensures framesToPlay == if old(framesToPlay).Some? then Some([]) else None
      ensures shownTexture == if hasRawImage then None else old(shownTexture)
    {
      Stop();
      if hasRawImage {
        shownTexture := None;
      }
      ClearFrames();
      previewInitialized := false;
    }

    /** Copies every stored frame, in store order, into a fresh texture list. */
    method Init()
      requires Valid()
      modifies this`framesToPlay, this`play, this`previewInitialized, this`copiedFrom
      ensures Valid() && previewInitialized
      ensures framesToPlay == Some(Textures(store.storedFrames)) && copiedFrom == store.storedFrames
      ensures play == (old(play) && |store.storedFrames| > 0)
    {
      ClearFrames();
      if framesToPlay == None {
        framesToPlay := Some([]);
        copiedFrom := [];
      }
      var i := 0;
      while i < store.Count()
        invariant 0 <= i <= |store.storedFrames|
        invariant framesToPlay == Some(Textures(store.storedFrames[..i]))
        invariant copiedFrom == store.storedFrames[..i]
        invariant play == old(play)
      {
        var frame := store.storedFrames[i];
        framesToPlay := Some(framesToPlay.value + [TextureOf(frame)]);
        copiedFrom := copiedFrom + [frame];
        i := i + 1;
        assert store.storedFrames[..i][..i - 1] == store.storedFrames[..i - 1];
      }
      assert store.storedFrames[..i] == store.storedFrames;
      previewInitialized := true;
      if |framesToPlay.value| == 0 {
        play := false;
      }
    }

    /** Empties a non-empty texture list (destroying the textures); a null or empty list stays. */
    method ClearFrames()
      requires Valid()
      modifies this`framesToPlay, this`copiedFrom
      ensures Valid()
      ensures framesToPlay == if old(framesToPlay).Some? && |old(framesToPlay).value| > 0
                              then Some([]) else old(framesToPlay)
    {
      if framesToPlay.Some? && |framesToPlay.value| > 0 {
        framesToPlay := Some([]);
        copiedFrom := [];
      }
    }

    /**
     * One engine frame at playback tick `tick`. Reports false when the raw
     * image is missing and the texture assignment fails.
     */
    method Update(tick: nat) returns (ok: bool)
      requires Valid()
      modifies this`play, this`shownTexture
      ensures Valid()
      ensures var idle := !old(play) || framesToPlay.None? || |framesToPlay.value| == 0;
        if idle || !hasRawImage then
          ok == idle && play == old(play) && shownTexture == old(shownTexture)
        else
          var n := |framesToPlay.value|;
          var index := FrameIndex(tick, n);
          && ok
          && shownTexture == Some(framesToPlay.value[index])
          && shownTexture == Some(TextureOf(copiedFrom[index]))
          && play == !(index == n - 1 && !loopPlayback)
    {
      if !play {
        return true;
      }
      if framesToPlay.None? || |framesToPlay.value| == 0 {
        return true;
      }
      var index := tick % |framesToPlay.value|;
      if !hasRawImage {
        return false;
      }
      shownTexture := Some(framesToPlay.value[index]);
      if index == |framesToPlay.value| - 1 && !loopPlayback {
        play := false;
      }
      ok := true;
    }
  }
}
