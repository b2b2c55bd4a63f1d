/**
 * `WordButtonHandler`: one word button of the grid. A tap speaks the button's
 * prompt through the global `getTTSResults`, when one is registered, and then
 * tells the grid which button was tapped, when the grid can hear it.
 */
module WordButtons {
  import opened Wrappers
  import Speech

  /** `WordButtonData`. */
  datatype WordButtonData = WordButtonData(id: int, word: string, prompt: string)

  /** What a tap does, in order. */
  datatype TapOutput = Spoken(prompt: string) | NoTTSController | GridNotified(data: WordButtonData)

  /** The grid script a button reports to, seen through whether it has an `onWordButtonTapped` function. */
  class WordGrid {
    const hasOnWordButtonTapped: bool
    /** Every button data `onWordButtonTapped` received, in order. */
    ghost var tapped: seq<WordButtonData>

    constructor (hasOnWordButtonTapped: bool)
      ensures this.hasOnWordButtonTapped == hasOnWordButtonTapped && tapped == []
    {
      this.hasOnWordButtonTapped := hasOnWordButtonTapped;
      tapped := [];
    }

    method OnWordButtonTapped(data: WordButtonData)
      requires hasOnWordButtonTapped
      modifies this
      ensures tapped == old(tapped) + [data]
    {
      tapped := tapped + [data];
    }
  }

  /** The outputs of a tap on a button holding `data`. */
  function TapOutputs(data: Option<WordButtonData>, ttsRegistered: bool, gridListens: bool): seq<TapOutput> {
    match data
    case None => []
    case Some(d) =>
      [if ttsRegistered then Spoken(d.prompt) else NoTTSController]
      + (if gridListens then [GridNotified(d)] else [])
  }

  /**
   * A tap without data does nothing. A tap with data first speaks exactly its
   * prompt (or finds no speech controller), and only then notifies the grid,
   * which happens whether or not speech was possible.
   */
  lemma TapOutputsOrder(data: Option<WordButtonData>, ttsRegistered: bool, gridListens: bool)
    ensures data.None? <==> TapOutputs(data, ttsRegistered, gridListens) == []
    ensures data.Some? ==>
              var out := TapOutputs(data, ttsRegistered, gridListens);
              && out[0] == (if ttsRegistered then Spoken(data.value.prompt) else NoTTSController)
              && (GridNotified(data.value) in out <==> gridListens)
              && (gridListens ==> out[|out| - 1] == GridNotified(data.value) && |out| == 2)
              && (forall k :: 0 <= k < |out| && out[k].Spoken? ==> k == 0 && out[k].prompt == data.value.prompt)
  {
  }

  class WordButtonHandler {
    var buttonData: Option<WordButtonData>
    var gridComponent: WordGrid?
    /** What taps on this button have done, in order. */
    ghost var outputs: seq<TapOutput>

    constructor ()
      ensures buttonData == None && gridComponent == null && outputs == []
    {
      buttonData := None;
      gridComponent := null;
      outputs := [];
    }

    /** `setButtonData`: replaces the data and nothing else. */
    method SetButtonData(data: WordButtonData)
      modifies this`buttonData
      ensures buttonData == Some(data)
    {
      buttonData := Some(data);
    }

    /** `setGridComponent`: replaces the grid and nothing else. */
    method SetGridComponent(gridComp: WordGrid?)
      modifies this`gridComponent
      ensures gridComponent == gridComp
    {
      gridComponent := gridComp;
    }

    /** `triggerSpeechOutput`: the registered controller synthesizes exactly the prompt; with none registered nothing is spoken. */
    method TriggerSpeechOutput(g: Speech.Globals, prompt: string)
      requires g.Ready()
      modifies this`outputs, if g.getTTSResults.Some? then {g.getTTSResults.value} else {}
      ensures g.getTTSResults.Some? ==>
                g.getTTSResults.value.requests ==
                  old(g.getTTSResults.value.requests)
                  + [Speech.SynthRequest(prompt, Speech.GetOptions(g.getTTSResults.value.settings), Speech.OnTTSComplete)]
      ensures outputs == old(outputs) + [if g.getTTSResults.Some? then Spoken(prompt) else NoTTSController]
    {
      if g.getTTSResults.Some? {
        g.getTTSResults.value.GetTTSResults(prompt);
        outputs := outputs + [Spoken(prompt)];
      } else {
        outputs := outputs + [NoTTSController];
      }
    }

    /**
     * `onButtonTapped`: without data nothing happens. With data the prompt is
     * spoken first, then the grid receives the data if it is set and has
     * `onWordButtonTapped`.
     */
    method OnButtonTapped(g: Speech.Globals)
      requires g.Ready()
      modifies this`outputs, gridComponent, if g.getTTSResults.Some? then {g.getTTSResults.value} else {}
      ensures outputs == old(outputs) + TapOutputs(buttonData, g.getTTSResults.Some?,
                                                   gridComponent != null && gridComponent.hasOnWordButtonTapped)
      ensures buttonData.None? ==>
                && (gridComponent != null ==> gridComponent.tapped == old(gridComponent.tapped))
                && (g.getTTSResults.Some? ==> g.getTTSResults.value.requests == old(g.getTTSResults.value.requests))
      ensures buttonData.Some? && g.getTTSResults.Some? ==>
                g.getTTSResults.value.requests ==
                  old(g.getTTSResults.value.requests)
                  + [Speech.SynthRequest(buttonData.value.prompt, Speech.GetOptions(g.getTTSResults.value.settings), Speech.OnTTSComplete)]
      ensures buttonData.Some? && gridComponent != null ==>
                gridComponent.tapped == old(gridComponent.tapped)
                  + (if gridComponent.hasOnWordButtonTapped then [buttonData.value] else [])
    {
      if buttonData.None? {
        return;
      }
      TriggerSpeechOutput(g, buttonData.value.prompt);
      if gridComponent != null && gridComponent.hasOnWordButtonTapped {
        gridComponent.OnWordButtonTapped(buttonData.value);
        outputs := outputs + [GridNotified(buttonData.value)];
      }
    }
  }
}
