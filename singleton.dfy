/** lib/AudioManagerSingleton.ts: the one audio manager of the app, made on
    first use. The module-level variable is the field of a slot object. */
module Singleton {

  import opened Options
  import opened ManagerSpec
  import opened AudioManager

  class ManagerSlot {
    /** let audioManager = null */
    var audioManager: IOSAudioManager?

    constructor ()
      ensures audioManager == null
    {
      audioManager := null;
    }

    /** getAudioManagerInstance: the first call makes a manager with no
        options (the default title, no mix id, no status handler) and keeps
        it; every later call returns that same manager, untouched. */
    method GetAudioManagerInstance() returns (m: IOSAudioManager)
      modifies this
      ensures audioManager == m
      ensures old(audioManager) != null ==> m == old(audioManager)
      ensures old(audioManager) == null ==>
        fresh(m) && m.State() == InitialManager(None, None, None) && m.Valid()
    {
      if audioManager == null {
        audioManager := new IOSAudioManager(None, None, None);
      }
      m := audioManager;
    }
  }
}
