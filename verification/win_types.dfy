/**
 * Fixed-width Windows integer types, HRESULT status codes and the
 * `exit_on_failed` failure policy of the audio manager.
 */
module WinTypes {

  type u16 = x: int | 0 <= x < 0x1_0000
  type u32 = x: int | 0 <= x < 0x1_0000_0000
  type i32 = x: int | -0x8000_0000 <= x < 0x8000_0000
  type i64 = x: int | -0x8000_0000_0000_0000 <= x < 0x8000_0000_0000_0000

  /** HRESULT is a signed 32-bit status code. */
  type HRESULT = i32

  const S_OK: HRESULT := 0
  const FACILITY_WIN32: nat := 7
  /** Win32 error code ERROR_NOT_FOUND (1168). */
  const ERROR_NOT_FOUND: u32 := 1168

  /** FAILED(hr): the status code is negative (severity bit set). */
  predicate Failed(hr: HRESULT) {
    hr < 0
  }

  /**
   * Conversion of an unsigned 32-bit value to a signed 32-bit `int`, as a
   * C++ cast does: the value is taken modulo 2^32 and read in two's complement.
   */
  function WrapI32(x: int): (r: i32)
    ensures (x - r) % 0x1_0000_0000 == 0
    ensures -0x8000_0000 <= x < 0x8000_0000 ==> r == x
  {
    var m := x % 0x1_0000_0000;
    if m < 0x8000_0000 then m else m - 0x1_0000_0000
  }

  /**
   * HRESULT_FROM_WIN32: a Win32 error code that is zero or negative as an
   * HRESULT is returned unchanged; any other code keeps its low 16 bits and
   * gets FACILITY_WIN32 and the failure bit.
   */
  function HResultFromWin32(x: u32): (r: HRESULT)
    ensures x == 0 ==> r == S_OK
    ensures 0 < x < 0x8000_0000 ==> Failed(r) && r + 0x1_0000_0000 == 0x8000_0000 + FACILITY_WIN32 * 0x1_0000 + x % 0x1_0000
    ensures x >= 0x8000_0000 ==> r + 0x1_0000_0000 == x
  {
    var s := WrapI32(x);
    if s <= 0 then s
    else WrapI32(x % 0x1_0000 + FACILITY_WIN32 * 0x1_0000 + 0x8000_0000)
  }

  /** The status GetDefaultAudioEndpoint reports when no default device is present. */
  function NotFound(): (r: HRESULT)
    ensures Failed(r)
  {
    HResultFromWin32(ERROR_NOT_FOUND)
  }

  /** NotFound() is 0x80070490 read as a signed 32-bit value. */
  lemma NotFoundValue()
    ensures NotFound() == 0x8007_0490 - 0x1_0000_0000
  {
  }

  /**
   * The outcome of a step guarded by `exit_on_failed`: either it goes on
   * with a value, or the process exits because `hr` failed.
   */
  datatype Checked<+T> = Ok(value: T) | Fatal(hr: HRESULT)

  /** `exit_on_failed(hr)`: terminate exactly when FAILED(hr), otherwise go on with `v`. */
  function ExitOnFailed<T>(hr: HRESULT, v: T): (r: Checked<T>)
    ensures r.Fatal? <==> hr < 0
    ensures r.Fatal? ==> r.hr == hr
    ensures r.Ok? ==> r.value == v
  {
    if Failed(hr) then Fatal(hr) else Ok(v)
  }
}
