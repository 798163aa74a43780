/**
 * Button selection in `enter_dfu_via_recovery`: the classified type picks
 * the button the operator holds together with the side button, or ends the
 * procedure with -1 when the type is not supported.
 */
module Buttons {
  import opened Wrappers
  import opened DeviceTable

  const HomeButton := "Home button"
  const VolumeDownButton := "Volume down button"

  /** `step2_sec`: length of the window in which both buttons are held. */
  const Step2Seconds := 4
  /** `step3_sec`: length of the window in which only the chosen button is held. */
  const Step3Seconds := 10

  /** The operator script for a supported device: the button label and the two window lengths. */
  datatype Plan = Plan(button: string, holdSeconds: int, releaseSeconds: int)

  /** None stands for the `return -1` taken for an unsupported type. */
  function SelectButton(kind: DfuType): (r: Option<Plan>)
    ensures r.None? <==> kind.DfuUnknownType?
    ensures r.Some? ==> r.value.holdSeconds == Step2Seconds && r.value.releaseSeconds == Step3Seconds
    ensures r.Some? ==> (r.value.button == HomeButton <==> kind == DfuLegacy)
    ensures r.Some? ==> (r.value.button == VolumeDownButton <==> kind in {DfuIPhone7, DfuIPhoneX})
  {
    if kind == DfuLegacy then Some(Plan(HomeButton, Step2Seconds, Step3Seconds))
    else if kind == DfuIPhone7 || kind == DfuIPhoneX then Some(Plan(VolumeDownButton, Step2Seconds, Step3Seconds))
    else None
  }

  /**
   * With the shipped table a CPID 0x8015 device, whatever its BDID, is told
   * to use the volume down button with windows of 4 and 10 seconds; any
   * other CPID is turned away.
   */
  lemma DevlistsPlan(cpid: nat, bdid: nat)
    ensures SelectButton(Classify(Devlists, cpid, bdid))
         == if cpid == 0x8015 then Some(Plan(VolumeDownButton, 4, 10)) else None
  {
    ClassifyDevlists(cpid, bdid);
  }
}
