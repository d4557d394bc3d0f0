/** The configuration service (src/services/configService.ts): the
    product-image visibility flag, read from its storage slot when the
    service is created and written back, with a change event, whenever it is
    set. */
module ConfigService {
  import opened Common

  /** `String(show)`. */
  function BoolText(b: bool): (text: string)
    ensures b ==> text == "true"
    ensures !b ==> text == "false"
  {
    if b then "true" else "false"
  }

  /** The flag the constructor derives from the `showProductImages` slot:
      true when nothing is stored, otherwise whether the text is exactly
      "true". */
  function ParseStored(stored: Option<string>): (show: bool)
    ensures stored.None? ==> show
    ensures stored.Some? ==> (show <==> stored.value == "true")
  {
    match stored
    case None => true
    case Some(text) => text == "true"
  }

  /** A stored flag reads back as the flag that was stored. */
  lemma StoredFlagRoundTrip(b: bool)
    ensures ParseStored(Some(BoolText(b))) == b
  {
  }

  /** Text other than "true" reads as false, whatever it spells, including
      "True" and "1". */
  lemma OnlyExactTrueIsTrue()
    ensures !ParseStored(Some("True")) && !ParseStored(Some("1")) && !ParseStored(Some(""))
  {
  }

  /** The service: the flag, the slot it persists to, and the details of the
      `product-images-setting-changed` events dispatched so far. */
  class ConfigStore {
    var showProductImages: bool
    var slot: Option<string>
    var dispatched: seq<bool>

    /** Creation over whatever the slot holds. */
    constructor (stored: Option<string>)
      ensures showProductImages == ParseStored(stored) && slot == stored && dispatched == []
    {
      showProductImages := true;
      slot := stored;
      dispatched := [];
      if stored.Some? {
        showProductImages := stored.value == "true";
      }
    }

    /** `getShowProductImages`. */
    method Get() returns (show: bool)
      ensures show == showProductImages
    {
      show := showProductImages;
    }

    /** `setShowProductImages`: the flag takes the value, the slot its text,
        and one event carrying the value is dispatched. */
    method Set(show: bool)
      modifies this
      ensures showProductImages == show && slot == Some(BoolText(show))
      ensures dispatched == old(dispatched) + [show]
    {
      showProductImages := show;
      slot := Some(BoolText(show));
      dispatched := dispatched + [show];
    }
  }

  /** Setting the flag is seen at once by `getShowProductImages`, and by a
      service created afresh over the same slot (the next page load). */
  method SetThenReload(config: ConfigStore, show: bool) returns (now: bool, afterReload: bool)
    modifies config
    ensures now == show && afterReload == show
    ensures config.dispatched == old(config.dispatched) + [show]
  {
    config.Set(show);
    now := config.Get();
    var reloaded := new ConfigStore(config.slot);
    StoredFlagRoundTrip(show);
    afterReload := reloaded.Get();
  }
}
