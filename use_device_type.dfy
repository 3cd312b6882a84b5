/** The device category chosen from the viewport width. */
module UseDeviceType {
  import opened Types

  /** Narrowest smartphone width and narrowest desktop width, in pixels. */
  const SmartphoneMinWidth: int := 300
  const DesktopMinWidth: int := 768

  /** The classification done on mount and on every resize: each category
      is exactly one half-open interval of widths. */
  function Classify(width: int): (d: DeviceType)
    ensures d == Wearable <==> width < 300
    ensures d == Smartphone <==> 300 <= width < 768
    ensures d == Desktop <==> 768 <= width
  {
    if width < SmartphoneMinWidth then Wearable
    else if width >= SmartphoneMinWidth && width < DesktopMinWidth then Smartphone
    else Desktop
  }

  /** The order wearable < smartphone < desktop. */
  function Rank(d: DeviceType): nat {
    match d
    case Wearable => 0
    case Smartphone => 1
    case Desktop => 2
  }

  /** A wider viewport never gets a smaller category. */
  lemma ClassifyMonotone(narrow: int, wide: int)
    requires narrow <= wide
    ensures Rank(Classify(narrow)) <= Rank(Classify(wide))
  {
  }

  /** The hook's state: the current category. */
  class DeviceTypeState {
    var deviceType: DeviceType

    /** The state before the mount effect runs. */
    constructor ()
      ensures deviceType == Desktop
    {
      deviceType := Desktop;
    }

    /** Reclassify from the current viewport width. */
    method HandleResize(width: int)
      modifies this
      ensures deviceType == Classify(width)
    {
      if width < SmartphoneMinWidth {
        deviceType := Wearable;
      } else if width >= SmartphoneMinWidth && width < DesktopMinWidth {
        deviceType := Smartphone;
      } else {
        deviceType := Desktop;
      }
    }

    /** The mount effect: classify once right away. */
    method Mount(innerWidth: int)
      modifies this
      ensures deviceType == Classify(innerWidth)
    {
      HandleResize(innerWidth);
    }
  }
}
