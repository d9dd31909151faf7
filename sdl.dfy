/**
 * src/lib/SDL.c: three subsystem switches kept in static booleans, and the
 * initialisation that turns them into the flag mask handed to SDL_Init.
 * SDL_Init itself is foreign: its status is a parameter.
 */
module Sdl {

  /** SDL2's subsystem bits (SDL.h of SDL2). */
  const SDL_INIT_AUDIO: bv32 := 0x0000_0010
  const SDL_INIT_VIDEO: bv32 := 0x0000_0020
  const SDL_INIT_JOYSTICK: bv32 := 0x0000_0200

  /** SDL__Error_t of src/lib/SDL.h. */
  datatype SdlError = SdlErrorNone | SdlErrorInitFailed

  function ErrorCode(e: SdlError): (code: nat)
    ensures code == 0 <==> e == SdlErrorNone
  {
    match e
    case SdlErrorNone => 0
    case SdlErrorInitFailed => 1
  }

  /** The mask that has exactly the bits of the enabled subsystems. */
  function Mask(audio: bool, gamepad: bool, video: bool): (r: bv32)
    ensures r & !(SDL_INIT_AUDIO | SDL_INIT_JOYSTICK | SDL_INIT_VIDEO) == 0
  {
    (if audio then SDL_INIT_AUDIO else 0)
    | (if gamepad then SDL_INIT_JOYSTICK else 0)
    | (if video then SDL_INIT_VIDEO else 0)
  }

  /** Each subsystem bit is set in the mask iff that subsystem is enabled, and no other bit is. */
  lemma MaskBits(audio: bool, gamepad: bool, video: bool)
    ensures (Mask(audio, gamepad, video) & SDL_INIT_AUDIO != 0) <==> audio
    ensures (Mask(audio, gamepad, video) & SDL_INIT_JOYSTICK != 0) <==> gamepad
    ensures (Mask(audio, gamepad, video) & SDL_INIT_VIDEO != 0) <==> video
    ensures Mask(audio, gamepad, video) & !(SDL_INIT_AUDIO | SDL_INIT_JOYSTICK | SDL_INIT_VIDEO) == 0
    ensures Mask(audio, gamepad, video) == 0 <==> !audio && !gamepad && !video
  {
  }

  /** The static booleans bs_SDL__UseAudio, bs_SDL__UseGamepad and bs_SDL__UseVideo. */
  class Subsystems {
    var useAudio: bool
    var useGamepad: bool
    var useVideo: bool

    /** The three statics start out false. */
    constructor ()
      ensures !useAudio && !useGamepad && !useVideo
    {
      useAudio, useGamepad, useVideo := false, false, false;
    }

    /** SDL__EnableAudio: sets its own flag and no other; calling it again changes nothing. */
    method EnableAudio()
      modifies this`useAudio
      ensures useAudio
    {
      useAudio := true;
    }

    /** SDL__EnableGamepad. */
    method EnableGamepad()
      modifies this`useGamepad
      ensures useGamepad
    {
      useGamepad := true;
    }

    /** SDL__EnableVideo. */
    method EnableVideo()
      modifies this`useVideo
      ensures useVideo
    {
      useVideo := true;
    }

    /**
     * SDL__Init: builds the flag mask one `|` at a time, hands it to SDL_Init
     * (whose status is `initStatus`), and fails iff SDL_Init reports nonzero.
     */
    method Init(initStatus: int) returns (flags: bv32, err: SdlError)
      ensures (flags & SDL_INIT_AUDIO != 0) <==> useAudio
      ensures (flags & SDL_INIT_JOYSTICK != 0) <==> useGamepad
      ensures (flags & SDL_INIT_VIDEO != 0) <==> useVideo
      ensures flags & !(SDL_INIT_AUDIO | SDL_INIT_JOYSTICK | SDL_INIT_VIDEO) == 0
      ensures err == SdlErrorInitFailed <==> initStatus != 0
    {
      flags := 0;
      if useAudio {
        flags := flags | SDL_INIT_AUDIO;
      }
      if useGamepad {
        flags := flags | SDL_INIT_JOYSTICK;
      }
      if useVideo {
        flags := flags | SDL_INIT_VIDEO;
      }
      assert flags == Mask(useAudio, useGamepad, useVideo);
      MaskBits(useAudio, useGamepad, useVideo);
      if initStatus != 0 {
        return flags, SdlErrorInitFailed;
      }
      return flags, SdlErrorNone;
    }
  }

  /** A fresh set of switches, with nothing enabled, yields the empty mask. */
  method InitWithNothingEnabled(initStatus: int) returns (flags: bv32)
    ensures flags == 0
  {
    var s := new Subsystems();
    var err;
    flags, err := s.Init(initStatus);
  }
}
