/** The parent every instrument extends: the list of sounds it has played
    and the colour group it belongs to. */
module Instrument {
  import opened Signal

  class Instrument {
    /** One finished buffer per `makeSound` fundamental, oldest first. */
    var soundsInstrumentPlay: seq<Buffer>
    /** The colour name; blank until a concrete instrument sets it. */
    var color: string

    /** A new instrument has played nothing and has a blank colour. */
    constructor()
      ensures soundsInstrumentPlay == [] && color == ""
    {
      soundsInstrumentPlay := [];
      color := "";
    }

    /** The base `makeSound` does nothing: neither field changes. */
    method MakeSound()
      ensures soundsInstrumentPlay == old(soundsInstrumentPlay) && color == old(color)
    {
    }

    /** The stored collection itself, unchanged and not recomputed. */
    method GetSoundsInstrumentPlay() returns (sounds: seq<Buffer>)
      ensures sounds == soundsInstrumentPlay
    {
      sounds := soundsInstrumentPlay;
    }

    /** `self.soundsInstrumentPlay.append(output)`: the one way the collection
        changes, and it only grows. */
    method AddSound(b: Buffer)
      modifies this
      ensures soundsInstrumentPlay == old(soundsInstrumentPlay) + [b]
      ensures color == old(color)
    {
      soundsInstrumentPlay := soundsInstrumentPlay + [b];
    }
  }
}
