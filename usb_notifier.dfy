/**
 * Recognising a Qualcomm device in emergency download mode from its
 * device path and the bus name its driver reports
 * (`USBNotifier.GetEmergencyPathType`). Either string may be null. The
 * Console messages are left out; raising an event is the result.
 */
module UsbNotifier {
  import opened Wrappers
  import opened Strings

  const QualcommVendor: string := "VID_05C6&"
  const EmergencyProduct: string := "&PID_9008"

  /** The event raised for a device, carrying its device path. */
  datatype EdlEvent = NoEvent | DownloadDetected(path: string) | FlashDetected(path: string)

  /** The path names Qualcomm's vendor id and the 9008 product id, in any letter case. */
  predicate QualcommEmergencyPath(path: string)
  {
    ContainsIgnoreCase(path, QualcommVendor) && ContainsIgnoreCase(path, EmergencyProduct)
  }

  /** The bus names of the download (Sahara) mode. */
  predicate DownloadBus(busName: string)
  {
    busName == "QHSUSB_DLOAD" || busName == "QHSUSB__BULK" || StartsWith(busName, "QUSB_BULK")
  }

  /** The bus name of the flash (Firehose already running) mode. */
  predicate FlashBus(busName: string)
  {
    busName == "QHSUSB_ARMPRG"
  }

  /**
   * The classification. A null path throws at its first use; a null bus
   * name throws once the path has matched, when the prefix test
   * dereferences it. The download names are tested first.
   */
  function GetEmergencyPathType(devicePath: Option<string>, busName: Option<string>): (r: Result<EdlEvent>)
    ensures devicePath.None? ==> r == Err(NullReference)
    ensures r.Err? ==> r.error == NullReference
                       && (devicePath.None? || (QualcommEmergencyPath(devicePath.value) && busName.None?))
    ensures devicePath.Some? && QualcommEmergencyPath(devicePath.value) && busName.None? ==> r == Err(NullReference)
    ensures devicePath.Some? && !QualcommEmergencyPath(devicePath.value) ==> r == Ok(NoEvent)
    ensures r.Ok? && r.value.DownloadDetected? <==>
      devicePath.Some? && QualcommEmergencyPath(devicePath.value) && busName.Some? && DownloadBus(busName.value)
    ensures r.Ok? && r.value.FlashDetected? <==>
      devicePath.Some? && QualcommEmergencyPath(devicePath.value) && busName.Some? && FlashBus(busName.value)
    ensures r.Ok? && !r.value.NoEvent? ==> devicePath.Some? && r.value.path == devicePath.value
  {
    if devicePath.None? then Err(NullReference)
    else
      var path := devicePath.value;
      if !ContainsIgnoreCase(path, QualcommVendor) || !ContainsIgnoreCase(path, EmergencyProduct) then Ok(NoEvent)
      else if busName == Some("QHSUSB_DLOAD") || busName == Some("QHSUSB__BULK") then Ok(DownloadDetected(path))
      else if busName.None? then Err(NullReference)
      else if StartsWith(busName.value, "QUSB_BULK") then
        DownloadAndFlashExclusive(busName.value);
        Ok(DownloadDetected(path))
      else if busName == Some("QHSUSB_ARMPRG") then Ok(FlashDetected(path))
      else Ok(NoEvent)
  }

  /** No bus name is both a download and a flash name, so one call raises at most one event. */
  lemma DownloadAndFlashExclusive(busName: string)
    ensures !(DownloadBus(busName) && FlashBus(busName))
  {
    if FlashBus(busName) {
      assert busName[..9] == "QHSUSB_AR";
    }
  }

  /** An empty bus name raises no event, so the messages for a driver without a bus name are never shown. */
  lemma EmptyBusNameRaisesNothing(devicePath: string)
    ensures GetEmergencyPathType(Some(devicePath), Some("")) == Ok(NoEvent)
  {
  }

  /** Folding the letter case of the path never changes which event is raised. */
  lemma {:induction false} PathCaseIrrelevant(path: string, folded: string, busName: Option<string>)
    requires |path| == |folded| && forall i :: 0 <= i < |path| ==> UpperAscii(path[i]) == UpperAscii(folded[i])
    ensures QualcommEmergencyPath(path) <==> QualcommEmergencyPath(folded)
    ensures var r, s := GetEmergencyPathType(Some(path), busName), GetEmergencyPathType(Some(folded), busName);
      && (r.Ok? <==> s.Ok?)
      && (r.Ok? ==> (r.value.NoEvent? <==> s.value.NoEvent?) && (r.value.DownloadDetected? <==> s.value.DownloadDetected?))
  {
    ContainsCaseIrrelevant(path, folded, QualcommVendor);
    ContainsCaseIrrelevant(path, folded, EmergencyProduct);
  }

  /** A case-insensitive search answers alike for two strings that agree once folded. */
  lemma ContainsCaseIrrelevant(s: string, t: string, p: string)
    requires |s| == |t| && forall i :: 0 <= i < |s| ==> UpperAscii(s[i]) == UpperAscii(t[i])
    ensures ContainsIgnoreCase(s, p) <==> ContainsIgnoreCase(t, p)
  {
    forall i | 0 <= i <= |s| - |p|
      ensures MatchesAtIgnoreCase(s, p, i) <==> MatchesAtIgnoreCase(t, p, i)
    {
      forall j | 0 <= j < |p|
        ensures EqualsIgnoreCase(s[i + j], p[j]) <==> EqualsIgnoreCase(t[i + j], p[j])
      {
        assert UpperAscii(s[i + j]) == UpperAscii(t[i + j]);
      }
    }
    if ContainsIgnoreCase(s, p) {
      var i :| 0 <= i <= |s| - |p| && MatchesAtIgnoreCase(s, p, i);
      assert MatchesAtIgnoreCase(t, p, i);
    }
    if ContainsIgnoreCase(t, p) {
      var i :| 0 <= i <= |t| - |p| && MatchesAtIgnoreCase(t, p, i);
      assert MatchesAtIgnoreCase(s, p, i);
    }
  }
}
