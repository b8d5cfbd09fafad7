/**
 * While echoing: what printPlaybackStatus draws (colour, running/stopped
 * label, loudness bar) and what keyPressHandler does for each key.
 */
module Playback {
  import opened LoudnessBar

  // ---------------------------------------------------------------------------
  // Status line
  // ---------------------------------------------------------------------------

  datatype Color = Green | Grey

  /** The coloured label and bar printPlaybackStatus writes. */
  datatype StatusView = StatusView(color: Color, text: string, bar: string)

  const RunningLabel: string := "(Running)"
  const StoppedLabel: string := "(Stopped)"

  /**
   * printPlaybackStatus, given whether the input stream is paused and the
   * last loudness measured: grey "(Stopped)" with an empty bar while
   * paused, green "(Running)" with the loudness bar otherwise.
   */
  method PrintPlaybackStatus(paused: bool, loudness: real) returns (view: StatusView)
    ensures view.color == Grey <==> paused
    ensures view.text == StoppedLabel <==> paused
    ensures view.text == RunningLabel <==> !paused
    ensures |view.bar| == MaxBarWidth
    ensures paused ==> view.bar == Repeat(EmptyCell, MaxBarWidth)
    ensures !paused ==> view.bar == Bar(loudness)
  {
    var color := if !paused then Green else Grey;
    var text := if !paused then RunningLabel else StoppedLabel;
    var bar := GetLoudnessBarString(if paused then 0.0 else loudness);
    if paused {
      QuietBar(0.0);
    }
    view := StatusView(color, text, bar);
  }

  // ---------------------------------------------------------------------------
  // Key presses
  // ---------------------------------------------------------------------------

  /**
   * The calls keyPressHandler makes, in order. ExitWhenFinished and
   * RestartWhenFinished register a callback for the end of the echo
   * pipeline: the first exits the process when it ended without error, the
   * second removes the key listener and starts the app again.
   */
  datatype Effect = StopAudio | PauseAudio | ResumeAudio | PrintStatus | ExitWhenFinished | RestartWhenFinished

  /** Ctrl+C as raw terminal input. */
  const CtrlC: string := "\U{3}"

  /** keyPressHandler: three independent checks of the key, in source order. */
  function KeyPress(key: string, paused: bool): (effects: seq<Effect>)
    ensures effects == [] <==> key != CtrlC && key != "p" && key != "r"
    ensures ExitWhenFinished in effects <==> key == CtrlC
    ensures RestartWhenFinished in effects <==> key == "r"
    ensures (PauseAudio in effects <==> key == "p" && !paused) && (ResumeAudio in effects <==> key == "p" && paused)
  {
    (if key == CtrlC then [StopAudio, ExitWhenFinished] else [])
    + (if key == "p" then (if !paused then [PauseAudio, PrintStatus] else [ResumeAudio]) else [])
    + (if key == "r" then [RestartWhenFinished, StopAudio] else [])
  }

  /** The input stream's paused flag after the effects (stopping is not a pause). */
  function PausedAfter(effects: seq<Effect>, paused: bool): bool {
    if effects == [] then paused
    else
      var next := match effects[0]
        case PauseAudio => true
        case ResumeAudio => false
        case _ => paused;
      PausedAfter(effects[1..], next)
  }

  /** Effects that neither pause nor resume leave the paused flag as it was. */
  lemma {:induction false} PausedAfterUnchanged(effects: seq<Effect>, paused: bool)
    requires PauseAudio !in effects && ResumeAudio !in effects
    ensures PausedAfter(effects, paused) == paused
  {
    if effects != [] {
      assert effects[0] in effects;
      assert forall e :: e in effects[1..] ==> e in effects;
      PausedAfterUnchanged(effects[1..], paused);
    }
  }

  /** Only Ctrl+C, "p" and "r" do anything; every other input is ignored. */
  lemma OtherKeysIgnored(key: string, paused: bool)
    requires key != CtrlC && key != "p" && key != "r"
    ensures KeyPress(key, paused) == []
  {
  }

  /** Ctrl+C stops the audio and then exits once the pipeline has finished. */
  lemma CtrlCStops(paused: bool)
    ensures KeyPress(CtrlC, paused) == [StopAudio, ExitWhenFinished]
    ensures PausedAfter(KeyPress(CtrlC, paused), paused) == paused
  {
    PausedAfterUnchanged([StopAudio, ExitWhenFinished], paused);
  }

  /** "r" arranges a restart for when the pipeline has finished, then stops the audio. */
  lemma RKeyRestarts(paused: bool)
    ensures KeyPress("r", paused) == [RestartWhenFinished, StopAudio]
    ensures ExitWhenFinished !in KeyPress("r", paused)
    ensures PausedAfter(KeyPress("r", paused), paused) == paused
  {
    PausedAfterUnchanged([RestartWhenFinished, StopAudio], paused);
  }

  /** "p" on a paused or running stream: the paused flag afterwards. */
  lemma {:induction false} PKeyFlips(paused: bool)
    ensures PausedAfter(KeyPress("p", paused), paused) == !paused
  {
    if paused {
      assert KeyPress("p", paused) == [ResumeAudio];
      assert PausedAfter([ResumeAudio], true) == PausedAfter([], false);
    } else {
      assert KeyPress("p", paused) == [PauseAudio, PrintStatus];
      assert PausedAfter([PauseAudio, PrintStatus], false) == PausedAfter([PrintStatus], true);
      assert PausedAfter([PrintStatus], true) == PausedAfter([], true);
    }
  }

  /**
   * "p" pauses a running stream (and redraws the status) or resumes a
   * paused one; it flips the paused flag, and pressing it twice restores it.
   */
  lemma PKeyToggles(paused: bool)
    ensures PausedAfter(KeyPress("p", paused), paused) == !paused
    ensures (PrintStatus in KeyPress("p", paused)) <==> !paused
    ensures StopAudio !in KeyPress("p", paused)
    ensures var once := PausedAfter(KeyPress("p", paused), paused);
            PausedAfter(KeyPress("p", once), once) == paused
  {
    PKeyFlips(paused);
    PKeyFlips(!paused);
  }

  /** The paused flag changes only on "p", and the audio stops only on Ctrl+C or "r". */
  lemma KeyEffectsByKey(key: string, paused: bool)
    ensures key != "p" ==> PausedAfter(KeyPress(key, paused), paused) == paused
    ensures (StopAudio in KeyPress(key, paused)) <==> key == CtrlC || key == "r"
  {
    if key != "p" {
      PausedAfterUnchanged(KeyPress(key, paused), paused);
    }
  }
}
