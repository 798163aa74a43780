/**
 * The four control-transfer wrappers of common/common.c, as the request
 * each one hands to the USB layer. The transfer itself is not modelled.
 *
 * The request-type byte is decoded as in section 9.3.1 of the USB 2.0
 * specification: bit 7 is the direction, bits 6..5 the type (1 = class) and
 * bits 4..0 the recipient (1 = interface). Request 1 is DFU_DNLOAD and 3 is
 * DFU_GETSTATUS in table 3.2 of USB DFU 1.1; `send_abort` sends request 4,
 * which that table names DFU_CLRSTATUS (DFU_ABORT is 6), and the model keeps 4.
 */
module Transfer {
  import opened Wrappers

  type U8 = x: int | 0 <= x < 0x100
  type U16 = x: int | 0 <= x < 0x1_0000

  /** The arguments of one `usb_ctrl_transfer` / `usb_ctrl_transfer_with_time` call. */
  datatype ControlRequest = ControlRequest(
    bmRequestType: U8, bRequest: U8, wValue: U16, wIndex: U16,
    length: nat, timeout: Option<int>)

  datatype Direction = HostToDevice | DeviceToHost

  function RequestDirection(bm: U8): Direction
  {
    if bm < 0x80 then HostToDevice else DeviceToHost
  }

  /** Bits 6..5: 0 standard, 1 class, 2 vendor. */
  function RequestKind(bm: U8): (k: int)
    ensures 0 <= k < 4
  {
    (bm / 0x20) % 4
  }

  /** Bits 4..0: 0 device, 1 interface, 2 endpoint. */
  function RequestRecipient(bm: U8): (r: int)
    ensures 0 <= r < 0x20
  {
    bm % 0x20
  }

  const ClassKind := 1
  const InterfaceRecipient := 1

  /** A class request addressed to an interface, the shape of every DFU request. */
  predicate IsClassInterface(r: ControlRequest)
  {
    RequestKind(r.bmRequestType) == ClassKind && RequestRecipient(r.bmRequestType) == InterfaceRecipient
  }

  function SendData(size: nat): (r: ControlRequest)
    ensures IsClassInterface(r) && RequestDirection(r.bmRequestType) == HostToDevice
    ensures r.bRequest == 1 && r.wValue == 0 && r.wIndex == 0
    ensures r.length == size && r.timeout.None?
  {
    ControlRequest(0x21, 1, 0x0000, 0x0000, size, None)
  }

  function SendDataWithTime(size: nat, timeout: int): (r: ControlRequest)
    ensures IsClassInterface(r) && RequestDirection(r.bmRequestType) == HostToDevice
    ensures r.bRequest == 1 && r.wValue == 0 && r.wIndex == 0
    ensures r.length == size && r.timeout == Some(timeout)
  {
    ControlRequest(0x21, 1, 0x0000, 0x0000, size, Some(timeout))
  }

  function GetStatus(size: nat): (r: ControlRequest)
    ensures IsClassInterface(r) && RequestDirection(r.bmRequestType) == DeviceToHost
    ensures r.bRequest == 3 && r.wValue == 0 && r.wIndex == 0
    ensures r.length == size && r.timeout.None?
  {
    ControlRequest(0xa1, 3, 0x0000, 0x0000, size, None)
  }

  /** Zero length, NULL buffer, timeout 0. */
  function SendAbort(): (r: ControlRequest)
    ensures IsClassInterface(r) && RequestDirection(r.bmRequestType) == HostToDevice
    ensures r.bRequest == 4 && r.wValue == 0 && r.wIndex == 0
    ensures r.length == 0 && r.timeout == Some(0)
  {
    ControlRequest(0x21, 4, 0x0000, 0x0000, 0, Some(0))
  }

  /** The two download wrappers differ only in the timeout they pass. */
  lemma DownloadsAgree(size: nat, timeout: int)
    ensures SendDataWithTime(size, timeout) == SendData(size).(timeout := Some(timeout))
  {
  }
}
