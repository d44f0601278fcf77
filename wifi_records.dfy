/** The network records a Wi-Fi scan reports and the shared store keeps. */
module WifiRecords {

  /** What `Number(v)` yields for an rssi value `v` that is not a JS number. */
  datatype NumberConversion = NaN | Converted(value: int)

  /** The `rssi` field of a record as received: a JS number, or some other value (a string,
      `null`, a missing key) together with what `Number` makes of it. */
  datatype RawRssi = Numeric(dbm: int) | NonNumeric(asNumber: NumberConversion)

  /** One access point of a scan result. */
  datatype Network = Network(ssid: string, bssid: string, channel: int, rssi: RawRssi)
}
