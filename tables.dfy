/** The code store of the main format: one dictionary per manufacturer, one
    packed code per command, and one table of records per command. The
    constants keep the names the firmware gives them. */
module Tables {
  import opened Platform
  import opened NibbleCode
  import opened Codes
  import RecordLayout

  // Dictionaries and packed codes: TVs

  const dict_samsung_tv: seq<BurstPair> := [
    BurstPair(172, 171), BurstPair(21, 65), BurstPair(21, 22)]
  const code_samsung_tv_POWER_ON: seq<Nibbles> := [
    Nibbles(0, 1), Nibbles(1, 1), Nibbles(2, 2), Nibbles(2, 2), Nibbles(2, 1), Nibbles(1, 1),
    Nibbles(2, 2), Nibbles(2, 2), Nibbles(2, 1), Nibbles(2, 2), Nibbles(1, 1), Nibbles(2, 2),
    Nibbles(1, 2), Nibbles(1, 1), Nibbles(2, 2), Nibbles(1, 1), Nibbles(2, 2)]
  const code_samsung_tv_POWER_OFF: seq<Nibbles> := [
    Nibbles(0, 1), Nibbles(1, 1), Nibbles(2, 2), Nibbles(2, 2), Nibbles(2, 1), Nibbles(1, 1),
    Nibbles(2, 2), Nibbles(2, 2), Nibbles(2, 2), Nibbles(2, 2), Nibbles(1, 1), Nibbles(2, 2),
    Nibbles(1, 1), Nibbles(1, 1), Nibbles(2, 2), Nibbles(1, 1), Nibbles(2, 2)]
  const code_samsung_tv_MUTE: seq<Nibbles> := [
    Nibbles(0, 1), Nibbles(1, 1), Nibbles(2, 2), Nibbles(2, 2), Nibbles(2, 1), Nibbles(1, 1),
    Nibbles(2, 2), Nibbles(2, 2), Nibbles(2, 1), Nibbles(1, 1), Nibbles(1, 2), Nibbles(2, 2),
    Nibbles(2, 2), Nibbles(2, 2), Nibbles(2, 1), Nibbles(1, 1), Nibbles(1, 2)]
  const code_samsung_tv_VOLUME_UP: seq<Nibbles> := [
    Nibbles(0, 1), Nibbles(1, 1), Nibbles(2, 2), Nibbles(2, 2), Nibbles(2, 1), Nibbles(1, 1),
    Nibbles(2, 2), Nibbles(2, 2), Nibbles(2, 1), Nibbles(1, 1), Nibbles(2, 2), Nibbles(2, 2),
    Nibbles(2, 2), Nibbles(2, 2), Nibbles(1, 1), Nibbles(1, 1), Nibbles(1, 2)]
  const code_samsung_tv_VOLUME_DOWN: seq<Nibbles> := [
    Nibbles(0, 1), Nibbles(1, 1), Nibbles(2, 2), Nibbles(2, 2), Nibbles(2, 1), Nibbles(1, 1),
    Nibbles(2, 2), Nibbles(2, 2), Nibbles(2, 1), Nibbles(1, 2), Nibbles(1, 2), Nibbles(2, 2),
    Nibbles(2, 2), Nibbles(2, 1), Nibbles(2, 1), Nibbles(1, 1), Nibbles(1, 2)]
  const code_samsung_tv_CHANNEL_UP: seq<Nibbles> := [
    Nibbles(0, 1), Nibbles(1, 1), Nibbles(2, 2), Nibbles(2, 2), Nibbles(2, 1), Nibbles(1, 1),
    Nibbles(2, 2), Nibbles(2, 2), Nibbles(2, 2), Nibbles(1, 2), Nibbles(2, 1), Nibbles(2, 2),
    Nibbles(2, 1), Nibbles(2, 1), Nibbles(1, 2), Nibbles(1, 1), Nibbles(1, 2)]
  const code_samsung_tv_CHANNEL_DOWN: seq<Nibbles> := [
    Nibbles(0, 1), Nibbles(1, 1), Nibbles(2, 2), Nibbles(2, 2), Nibbles(2, 1), Nibbles(1, 1),
    Nibbles(2, 2), Nibbles(2, 2), Nibbles(2, 2), Nibbles(2, 2), Nibbles(2, 1), Nibbles(2, 2),
    Nibbles(2, 1), Nibbles(1, 1), Nibbles(1, 2), Nibbles(1, 1), Nibbles(1, 2)]

  const dict_lge_tv: seq<BurstPair> := [BurstPair(343, 171), BurstPair(22, 21), BurstPair(22, 63)]
  const code_lge_tv_POWER_ON: seq<Nibbles> := [
    Nibbles(0, 1), Nibbles(1, 2), Nibbles(1, 1), Nibbles(1, 1), Nibbles(1, 2), Nibbles(2, 1),
    Nibbles(2, 2), Nibbles(2, 2), Nibbles(2, 1), Nibbles(1, 2), Nibbles(1, 1), Nibbles(1, 2),
    Nibbles(2, 2), Nibbles(2, 1), Nibbles(2, 2), Nibbles(2, 1), Nibbles(1, 1)]
  const code_lge_tv_POWER_OFF: seq<Nibbles> := [
    Nibbles(0, 1), Nibbles(1, 2), Nibbles(1, 1), Nibbles(1, 1), Nibbles(1, 2), Nibbles(2, 1),
    Nibbles(2, 2), Nibbles(2, 2), Nibbles(2, 2), Nibbles(1, 2), Nibbles(1, 1), Nibbles(1, 2),
    Nibbles(2, 1), Nibbles(2, 1), Nibbles(2, 2), Nibbles(2, 1), Nibbles(1, 1)]
  const code_lge_tv_MUTE: seq<Nibbles> := [
    Nibbles(0, 1), Nibbles(1, 2), Nibbles(1, 1), Nibbles(1, 1), Nibbles(1, 2), Nibbles(2, 1),
    Nibbles(2, 2), Nibbles(2, 2), Nibbles(2, 2), Nibbles(1, 1), Nibbles(2, 1), Nibbles(1, 1),
    Nibbles(1, 1), Nibbles(2, 2), Nibbles(1, 2), Nibbles(2, 2), Nibbles(2, 1)]
  const code_lge_tv_VOLUME_UP: seq<Nibbles> := [
    Nibbles(0, 1), Nibbles(1, 2), Nibbles(1, 1), Nibbles(1, 1), Nibbles(1, 2), Nibbles(2, 1),
    Nibbles(2, 2), Nibbles(2, 2), Nibbles(2, 1), Nibbles(2, 1), Nibbles(1, 1), Nibbles(1, 1),
    Nibbles(1, 2), Nibbles(1, 2), Nibbles(2, 2), Nibbles(2, 2), Nibbles(2, 1)]
  const code_lge_tv_VOLUME_DOWN: seq<Nibbles> := [
    Nibbles(0, 1), Nibbles(1, 2), Nibbles(1, 1), Nibbles(1, 1), Nibbles(1, 2), Nibbles(2, 1),
    Nibbles(2, 2), Nibbles(2, 2), Nibbles(2, 2), Nibbles(2, 1), Nibbles(1, 1), Nibbles(1, 1),
    Nibbles(1, 1), Nibbles(1, 2), Nibbles(2, 2), Nibbles(2, 2), Nibbles(2, 1)]
  const code_lge_tv_CHANNEL_UP: seq<Nibbles> := [
    Nibbles(0, 1), Nibbles(1, 2), Nibbles(1, 1), Nibbles(1, 1), Nibbles(1, 2), Nibbles(2, 1),
    Nibbles(2, 2), Nibbles(2, 2), Nibbles(2, 1), Nibbles(1, 1), Nibbles(1, 1), Nibbles(1, 1),
    Nibbles(1, 2), Nibbles(2, 2), Nibbles(2, 2), Nibbles(2, 2), Nibbles(2, 1)]
  const code_lge_tv_CHANNEL_DOWN: seq<Nibbles> := [
    Nibbles(0, 1), Nibbles(1, 2), Nibbles(1, 1), Nibbles(1, 1), Nibbles(1, 2), Nibbles(2, 1),
    Nibbles(2, 2), Nibbles(2, 2), Nibbles(2, 2), Nibbles(1, 1), Nibbles(1, 1), Nibbles(1, 1),
    Nibbles(1, 1), Nibbles(2, 2), Nibbles(2, 2), Nibbles(2, 2), Nibbles(2, 1)]

  const dict_sony_tv: seq<BurstPair> := [BurstPair(96, 24), BurstPair(24, 24), BurstPair(48, 24)]
  const code_sony_tv_POWER_ON: seq<Nibbles> := [
    Nibbles(0, 1), Nibbles(2, 2), Nibbles(2, 1), Nibbles(2, 1), Nibbles(2, 1), Nibbles(1, 1),
    Nibbles(1, 0)]
  const code_sony_tv_POWER_OFF: seq<Nibbles> := [
    Nibbles(0, 2), Nibbles(2, 2), Nibbles(2, 1), Nibbles(2, 1), Nibbles(2, 1), Nibbles(1, 1),
    Nibbles(1, 0)]
  const code_sony_tv_MUTE: seq<Nibbles> := [
    Nibbles(0, 1), Nibbles(1, 2), Nibbles(1, 2), Nibbles(1, 1), Nibbles(2, 1), Nibbles(1, 1),
    Nibbles(1, 0)]
  const code_sony_tv_VOLUME_UP: seq<Nibbles> := [
    Nibbles(0, 1), Nibbles(2, 1), Nibbles(1, 2), Nibbles(1, 1), Nibbles(2, 1), Nibbles(1, 1),
    Nibbles(1, 0)]
  const code_sony_tv_VOLUME_DOWN: seq<Nibbles> := [
    Nibbles(0, 2), Nibbles(2, 1), Nibbles(1, 2), Nibbles(1, 1), Nibbles(2, 1), Nibbles(1, 1),
    Nibbles(1, 0)]
  const code_sony_tv_CHANNEL_UP: seq<Nibbles> := [
    Nibbles(0, 1), Nibbles(1, 1), Nibbles(1, 2), Nibbles(1, 1), Nibbles(2, 1), Nibbles(1, 1),
    Nibbles(1, 0)]
  const code_sony_tv_CHANNEL_DOWN: seq<Nibbles> := [
    Nibbles(0, 2), Nibbles(1, 1), Nibbles(1, 2), Nibbles(1, 1), Nibbles(2, 1), Nibbles(1, 1),
    Nibbles(1, 0)]

  const dict_panasonic_tv: seq<BurstPair> := [
    BurstPair(16, 16), BurstPair(16, 48), BurstPair(128, 64)]
  const code_panasonic_tv_POWER_ON: seq<Nibbles> := [
    Nibbles(2, 0), Nibbles(1, 0), Nibbles(0, 0), Nibbles(0, 0), Nibbles(0, 0), Nibbles(0, 0),
    Nibbles(0, 0), Nibbles(1, 0), Nibbles(0, 0), Nibbles(0, 0), Nibbles(0, 0), Nibbles(0, 0),
    Nibbles(1, 0), Nibbles(0, 0), Nibbles(0, 0), Nibbles(0, 0), Nibbles(0, 0), Nibbles(1, 1),
    Nibbles(1, 1), Nibbles(1, 0), Nibbles(0, 0), Nibbles(1, 1), Nibbles(1, 1), Nibbles(1, 0),
    Nibbles(1, 0)]
  const code_panasonic_tv_POWER_OFF: seq<Nibbles> := [
    Nibbles(2, 0), Nibbles(1, 0), Nibbles(0, 0), Nibbles(0, 0), Nibbles(0, 0), Nibbles(0, 0),
    Nibbles(0, 0), Nibbles(1, 0), Nibbles(0, 0), Nibbles(0, 0), Nibbles(0, 0), Nibbles(0, 0),
    Nibbles(1, 0), Nibbles(0, 0), Nibbles(0, 0), Nibbles(0, 0), Nibbles(0, 1), Nibbles(1, 1),
    Nibbles(1, 1), Nibbles(1, 0), Nibbles(0, 1), Nibbles(1, 1), Nibbles(1, 1), Nibbles(1, 0),
    Nibbles(1, 0)]
  const code_panasonic_tv_MUTE: seq<Nibbles> := [
    Nibbles(2, 0), Nibbles(1, 0), Nibbles(0, 0), Nibbles(0, 0), Nibbles(0, 0), Nibbles(0, 0),
    Nibbles(0, 0), Nibbles(1, 0), Nibbles(0, 0), Nibbles(0, 0), Nibbles(0, 0), Nibbles(0, 0),
    Nibbles(1, 0), Nibbles(0, 0), Nibbles(0, 0), Nibbles(0, 0), Nibbles(0, 0), Nibbles(1, 0),
    Nibbles(0, 1), Nibbles(1, 0), Nibbles(0, 0), Nibbles(1, 0), Nibbles(0, 1), Nibbles(1, 0),
    Nibbles(1, 0)]
  const code_panasonic_tv_VOLUME_UP: seq<Nibbles> := [
    Nibbles(2, 0), Nibbles(1, 0), Nibbles(0, 0), Nibbles(0, 0), Nibbles(0, 0), Nibbles(0, 0),
    Nibbles(0, 0), Nibbles(1, 0), Nibbles(0, 0), Nibbles(0, 0), Nibbles(0, 0), Nibbles(0, 0),
    Nibbles(1, 0), Nibbles(0, 0), Nibbles(0, 0), Nibbles(0, 0), Nibbles(0, 0), Nibbles(0, 0),
    Nibbles(0, 0), Nibbles(1, 0), Nibbles(0, 0), Nibbles(0, 0), Nibbles(0, 0), Nibbles(1, 0),
    Nibbles(1, 0)]
  const code_panasonic_tv_VOLUME_DOWN: seq<Nibbles> := [
    Nibbles(2, 0), Nibbles(1, 0), Nibbles(0, 0), Nibbles(0, 0), Nibbles(0, 0), Nibbles(0, 0),
    Nibbles(0, 0), Nibbles(1, 0), Nibbles(0, 0), Nibbles(0, 0), Nibbles(0, 0), Nibbles(0, 0),
    Nibbles(1, 0), Nibbles(0, 0), Nibbles(0, 0), Nibbles(0, 0), Nibbles(0, 1), Nibbles(0, 0),
    Nibbles(0, 0), Nibbles(1, 0), Nibbles(0, 1), Nibbles(0, 0), Nibbles(0, 0), Nibbles(1, 0),
    Nibbles(1, 0)]
  const code_panasonic_tv_CHANNEL_UP: seq<Nibbles> := [
    Nibbles(2, 0), Nibbles(1, 0), Nibbles(0, 0), Nibbles(0, 0), Nibbles(0, 0), Nibbles(0, 0),
    Nibbles(0, 0), Nibbles(1, 0), Nibbles(0, 0), Nibbles(0, 0), Nibbles(0, 0), Nibbles(0, 0),
    Nibbles(1, 0), Nibbles(0, 0), Nibbles(0, 0), Nibbles(0, 0), Nibbles(0, 0), Nibbles(0, 1),
    Nibbles(0, 1), Nibbles(1, 0), Nibbles(0, 0), Nibbles(0, 1), Nibbles(0, 1), Nibbles(1, 0),
    Nibbles(1, 0)]
  const code_panasonic_tv_CHANNEL_DOWN: seq<Nibbles> := [
    Nibbles(2, 0), Nibbles(1, 0), Nibbles(0, 0), Nibbles(0, 0), Nibbles(0, 0), Nibbles(0, 0),
    Nibbles(0, 0), Nibbles(1, 0), Nibbles(0, 0), Nibbles(0, 0), Nibbles(0, 0), Nibbles(0, 0),
    Nibbles(1, 0), Nibbles(0, 0), Nibbles(0, 0), Nibbles(0, 0), Nibbles(0, 1), Nibbles(0, 1),
    Nibbles(0, 1), Nibbles(1, 0), Nibbles(0, 1), Nibbles(0, 1), Nibbles(0, 1), Nibbles(1, 0),
    Nibbles(1, 0)]

  const dict_sharp_tv: seq<BurstPair> := [BurstPair(10, 72), BurstPair(10, 29)]
  const code_sharp_tv_POWER_ON: seq<Nibbles> := [
    Nibbles(0, 1), Nibbles(1, 1), Nibbles(0, 1), Nibbles(0, 1), Nibbles(0, 1), Nibbles(1, 0),
    Nibbles(1, 0), Nibbles(1, 1)]
  const code_sharp_tv_POWER_OFF: seq<Nibbles> := [
    Nibbles(0, 1), Nibbles(1, 1), Nibbles(0, 0), Nibbles(0, 1), Nibbles(0, 1), Nibbles(1, 0),
    Nibbles(1, 0), Nibbles(1, 1)]
  const code_sharp_tv_MUTE: seq<Nibbles> := [
    Nibbles(0, 1), Nibbles(1, 1), Nibbles(1, 0), Nibbles(0, 0), Nibbles(1, 0), Nibbles(1, 1),
    Nibbles(1, 0), Nibbles(1, 1)]
  const code_sharp_tv_VOLUME_UP: seq<Nibbles> := [
    Nibbles(0, 1), Nibbles(1, 1), Nibbles(1, 1), Nibbles(1, 0), Nibbles(1, 0), Nibbles(1, 1),
    Nibbles(1, 0), Nibbles(1, 1)]
  const code_sharp_tv_VOLUME_DOWN: seq<Nibbles> := [
    Nibbles(0, 1), Nibbles(1, 1), Nibbles(1, 0), Nibbles(1, 0), Nibbles(1, 0), Nibbles(1, 1),
    Nibbles(1, 0), Nibbles(1, 1)]
  const code_sharp_tv_CHANNEL_UP: seq<Nibbles> := [
    Nibbles(0, 1), Nibbles(1, 1), Nibbles(1, 0), Nibbles(1, 1), Nibbles(1, 0), Nibbles(1, 1),
    Nibbles(1, 0), Nibbles(1, 1)]
  const code_sharp_tv_CHANNEL_DOWN: seq<Nibbles> := [
    Nibbles(0, 1), Nibbles(1, 1), Nibbles(1, 1), Nibbles(0, 1), Nibbles(1, 0), Nibbles(1, 1),
    Nibbles(1, 0), Nibbles(1, 1)]

  const dict_philips_tv: seq<BurstPair> := [
    BurstPair(32, 32), BurstPair(64, 32), BurstPair(32, 64), BurstPair(64, 64)]
  const code_philips_tv_POWER_ON: seq<Nibbles> := [
    Nibbles(0, 1), Nibbles(0, 0), Nibbles(0, 0), Nibbles(2, 0), Nibbles(0, 0), Nibbles(0, 0),
    Nibbles(0, 0)]
  const code_philips_tv_POWER_OFF: seq<Nibbles> := [
    Nibbles(0, 1), Nibbles(0, 0), Nibbles(0, 0), Nibbles(2, 0), Nibbles(0, 0), Nibbles(3, 0)]
  const code_philips_tv_MUTE: seq<Nibbles> := [
    Nibbles(0, 1), Nibbles(0, 0), Nibbles(0, 0), Nibbles(0, 0), Nibbles(2, 0), Nibbles(3, 0)]
  const code_philips_tv_VOLUME_UP: seq<Nibbles> := [
    Nibbles(0, 1), Nibbles(0, 0), Nibbles(0, 0), Nibbles(0, 2), Nibbles(1, 0), Nibbles(0, 0)]
  const code_philips_tv_VOLUME_DOWN: seq<Nibbles> := [
    Nibbles(0, 1), Nibbles(0, 0), Nibbles(0, 0), Nibbles(0, 2), Nibbles(1, 0), Nibbles(2, 0)]
  const code_philips_tv_CHANNEL_UP: seq<Nibbles> := [
    Nibbles(0, 1), Nibbles(0, 0), Nibbles(0, 0), Nibbles(2, 1), Nibbles(0, 0), Nibbles(0, 0)]
  const code_philips_tv_CHANNEL_DOWN: seq<Nibbles> := [
    Nibbles(0, 1), Nibbles(0, 0), Nibbles(0, 0), Nibbles(2, 1), Nibbles(0, 0), Nibbles(2, 0)]

  const dict_vizio_tv: seq<BurstPair> := [BurstPair(343, 172), BurstPair(21, 22), BurstPair(21, 65)]
  const code_vizio_tv_POWER_ON: seq<Nibbles> := [
    Nibbles(0, 1), Nibbles(1, 2), Nibbles(1, 1), Nibbles(1, 1), Nibbles(1, 2), Nibbles(2, 1),
    Nibbles(2, 2), Nibbles(2, 2), Nibbles(2, 1), Nibbles(2, 1), Nibbles(2, 1), Nibbles(2, 1),
    Nibbles(1, 2), Nibbles(1, 2), Nibbles(1, 2), Nibbles(1, 2), Nibbles(2, 1)]
  const code_vizio_tv_POWER_OFF: seq<Nibbles> := [
    Nibbles(0, 1), Nibbles(1, 2), Nibbles(1, 1), Nibbles(1, 1), Nibbles(1, 2), Nibbles(2, 1),
    Nibbles(2, 2), Nibbles(2, 2), Nibbles(2, 2), Nibbles(1, 2), Nibbles(1, 1), Nibbles(2, 1),
    Nibbles(1, 1), Nibbles(2, 1), Nibbles(2, 2), Nibbles(1, 2), Nibbles(2, 1)]
  const code_vizio_tv_MUTE_ON: seq<Nibbles> := [
    Nibbles(0, 1), Nibbles(1, 2), Nibbles(1, 1), Nibbles(1, 1), Nibbles(1, 2), Nibbles(2, 1),
    Nibbles(2, 2), Nibbles(2, 2), Nibbles(2, 1), Nibbles(1, 1), Nibbles(1, 1), Nibbles(2, 1),
    Nibbles(1, 2), Nibbles(2, 2), Nibbles(2, 2), Nibbles(1, 2), Nibbles(2, 1)]
  const code_vizio_tv_MUTE_OFF: seq<Nibbles> := [
    Nibbles(0, 1), Nibbles(1, 2), Nibbles(1, 1), Nibbles(1, 1), Nibbles(1, 2), Nibbles(2, 1),
    Nibbles(2, 2), Nibbles(2, 2), Nibbles(2, 2), Nibbles(1, 1), Nibbles(1, 1), Nibbles(2, 1),
    Nibbles(1, 1), Nibbles(2, 2), Nibbles(2, 2), Nibbles(1, 2), Nibbles(2, 1)]
  const code_vizio_tv_VOLUME_UP: seq<Nibbles> := [
    Nibbles(0, 1), Nibbles(1, 2), Nibbles(1, 1), Nibbles(1, 1), Nibbles(1, 2), Nibbles(2, 1),
    Nibbles(2, 2), Nibbles(2, 2), Nibbles(2, 1), Nibbles(2, 1), Nibbles(1, 1), Nibbles(1, 1),
    Nibbles(1, 2), Nibbles(1, 2), Nibbles(2, 2), Nibbles(2, 2), Nibbles(2, 1)]
  const code_vizio_tv_VOLUME_DOWN: seq<Nibbles> := [
    Nibbles(0, 1), Nibbles(1, 2), Nibbles(1, 1), Nibbles(1, 1), Nibbles(1, 2), Nibbles(2, 1),
    Nibbles(2, 2), Nibbles(2, 2), Nibbles(2, 2), Nibbles(2, 1), Nibbles(1, 1), Nibbles(1, 1),
    Nibbles(1, 1), Nibbles(1, 2), Nibbles(2, 2), Nibbles(2, 2), Nibbles(2, 1)]
  const code_vizio_tv_CHANNEL_UP: seq<Nibbles> := [
    Nibbles(0, 1), Nibbles(1, 2), Nibbles(1, 1), Nibbles(1, 1), Nibbles(1, 2), Nibbles(2, 1),
    Nibbles(2, 2), Nibbles(2, 2), Nibbles(2, 1), Nibbles(1, 1), Nibbles(1, 1), Nibbles(1, 1),
    Nibbles(1, 2), Nibbles(2, 2), Nibbles(2, 2), Nibbles(2, 2), Nibbles(2, 1)]
  const code_vizio_tv_CHANNEL_DOWN: seq<Nibbles> := [
    Nibbles(0, 1), Nibbles(1, 2), Nibbles(1, 1), Nibbles(1, 1), Nibbles(1, 2), Nibbles(2, 1),
    Nibbles(2, 2), Nibbles(2, 2), Nibbles(2, 2), Nibbles(1, 1), Nibbles(1, 1), Nibbles(1, 1),
    Nibbles(1, 1), Nibbles(2, 2), Nibbles(2, 2), Nibbles(2, 2), Nibbles(2, 1)]

  const dict_pioneer_tv: seq<BurstPair> := [
    BurstPair(360, 180), BurstPair(22, 22), BurstPair(22, 67)]
  const code_pioneer_tv_POWER_ON: seq<Nibbles> := [
    Nibbles(0, 1), Nibbles(2, 1), Nibbles(2, 1), Nibbles(2, 1), Nibbles(2, 2), Nibbles(1, 2),
    Nibbles(1, 2), Nibbles(1, 2), Nibbles(1, 1), Nibbles(1, 2), Nibbles(2, 2), Nibbles(1, 1),
    Nibbles(1, 2), Nibbles(2, 1), Nibbles(1, 1), Nibbles(2, 2), Nibbles(2, 1)]
  const code_pioneer_tv_POWER_OFF: seq<Nibbles> := [
    Nibbles(0, 1), Nibbles(2, 1), Nibbles(2, 1), Nibbles(2, 1), Nibbles(2, 2), Nibbles(1, 2),
    Nibbles(1, 2), Nibbles(1, 2), Nibbles(1, 2), Nibbles(2, 1), Nibbles(2, 2), Nibbles(1, 1),
    Nibbles(1, 1), Nibbles(1, 2), Nibbles(1, 1), Nibbles(2, 2), Nibbles(2, 1)]
  const code_pioneer_tv_MUTE: seq<Nibbles> := [
    Nibbles(0, 1), Nibbles(2, 1), Nibbles(2, 1), Nibbles(2, 1), Nibbles(2, 2), Nibbles(1, 2),
    Nibbles(1, 2), Nibbles(1, 2), Nibbles(1, 2), Nibbles(1, 1), Nibbles(2, 1), Nibbles(1, 2),
    Nibbles(1, 1), Nibbles(2, 2), Nibbles(1, 2), Nibbles(2, 1), Nibbles(2, 1)]
  const code_pioneer_tv_VOLUME_UP: seq<Nibbles> := [
    Nibbles(0, 1), Nibbles(2, 1), Nibbles(2, 1), Nibbles(2, 1), Nibbles(2, 2), Nibbles(1, 2),
    Nibbles(1, 2), Nibbles(1, 2), Nibbles(1, 1), Nibbles(2, 1), Nibbles(2, 1), Nibbles(1, 1),
    Nibbles(1, 2), Nibbles(1, 2), Nibbles(1, 2), Nibbles(2, 2), Nibbles(2, 1)]
  const code_pioneer_tv_VOLUME_DOWN: seq<Nibbles> := [
    Nibbles(0, 1), Nibbles(2, 1), Nibbles(2, 1), Nibbles(2, 1), Nibbles(2, 2), Nibbles(1, 2),
    Nibbles(1, 2), Nibbles(1, 2), Nibbles(1, 2), Nibbles(2, 1), Nibbles(2, 1), Nibbles(1, 1),
    Nibbles(1, 1), Nibbles(1, 2), Nibbles(1, 2), Nibbles(2, 2), Nibbles(2, 1)]
  const code_pioneer_tv_CHANNEL_UP: seq<Nibbles> := [
    Nibbles(0, 1), Nibbles(2, 1), Nibbles(2, 1), Nibbles(2, 1), Nibbles(2, 2), Nibbles(1, 2),
    Nibbles(1, 2), Nibbles(1, 2), Nibbles(1, 1), Nibbles(1, 1), Nibbles(1, 2), Nibbles(1, 1),
    Nibbles(1, 2), Nibbles(2, 2), Nibbles(2, 1), Nibbles(2, 2), Nibbles(2, 1)]
  const code_pioneer_tv_CHANNEL_DOWN: seq<Nibbles> := [
    Nibbles(0, 1), Nibbles(2, 1), Nibbles(2, 1), Nibbles(2, 1), Nibbles(2, 2), Nibbles(1, 2),
    Nibbles(1, 2), Nibbles(1, 2), Nibbles(1, 2), Nibbles(1, 1), Nibbles(1, 2), Nibbles(1, 1),
    Nibbles(1, 1), Nibbles(2, 2), Nibbles(2, 1), Nibbles(2, 2), Nibbles(2, 1)]

  const dict_mitsubishi_tv: seq<BurstPair> := [BurstPair(10, 68), BurstPair(10, 29)]
  const code_mitsubishi_tv_POWER_ON: seq<Nibbles> := [
    Nibbles(0, 0), Nibbles(0, 1), Nibbles(1, 1), Nibbles(0, 1), Nibbles(1, 0), Nibbles(1, 1),
    Nibbles(1, 1), Nibbles(0, 1), Nibbles(1, 0)]
  const code_mitsubishi_tv_POWER_OFF: seq<Nibbles> := [
    Nibbles(0, 0), Nibbles(0, 1), Nibbles(1, 1), Nibbles(0, 1), Nibbles(1, 0), Nibbles(1, 0),
    Nibbles(1, 1), Nibbles(0, 1), Nibbles(1, 0)]
  const code_mitsubishi_tv_MUTE: seq<Nibbles> := [
    Nibbles(0, 0), Nibbles(0, 1), Nibbles(1, 1), Nibbles(0, 1), Nibbles(1, 0), Nibbles(1, 1),
    Nibbles(0, 0), Nibbles(1, 1), Nibbles(1, 0)]
  const code_mitsubishi_tv_VOLUME_UP: seq<Nibbles> := [
    Nibbles(0, 0), Nibbles(0, 1), Nibbles(1, 1), Nibbles(0, 1), Nibbles(1, 0), Nibbles(1, 1),
    Nibbles(1, 0), Nibbles(1, 1), Nibbles(1, 0)]
  const code_mitsubishi_tv_VOLUME_DOWN: seq<Nibbles> := [
    Nibbles(0, 0), Nibbles(0, 1), Nibbles(1, 1), Nibbles(0, 1), Nibbles(1, 0), Nibbles(1, 0),
    Nibbles(1, 0), Nibbles(1, 1), Nibbles(1, 0)]
  const code_mitsubishi_tv_CHANNEL_UP: seq<Nibbles> := [
    Nibbles(0, 0), Nibbles(0, 1), Nibbles(1, 1), Nibbles(0, 1), Nibbles(1, 0), Nibbles(1, 0),
    Nibbles(1, 1), Nibbles(1, 1), Nibbles(1, 0)]
  const code_mitsubishi_tv_CHANNEL_DOWN: seq<Nibbles> := [
    Nibbles(0, 0), Nibbles(0, 1), Nibbles(1, 1), Nibbles(0, 1), Nibbles(1, 0), Nibbles(1, 1),
    Nibbles(0, 1), Nibbles(1, 1), Nibbles(1, 0)]

  const dict_fujitsu_tv: seq<BurstPair> := [
    BurstPair(122, 61), BurstPair(15, 15), BurstPair(15, 46)]
  const code_fujitsu_tv_POWER_ON: seq<Nibbles> := [
    Nibbles(0, 1), Nibbles(1, 2), Nibbles(1, 2), Nibbles(1, 1), Nibbles(1, 2), Nibbles(2, 1),
    Nibbles(1, 1), Nibbles(2, 2), Nibbles(1, 1), Nibbles(1, 1), Nibbles(1, 1), Nibbles(1, 1),
    Nibbles(1, 1), Nibbles(1, 2), Nibbles(1, 1), Nibbles(1, 1), Nibbles(2, 1), Nibbles(2, 1),
    Nibbles(2, 1), Nibbles(1, 1), Nibbles(2, 2), Nibbles(1, 1), Nibbles(1, 1), Nibbles(1, 1),
    Nibbles(1, 1)]
  const code_fujitsu_tv_POWER_OFF: seq<Nibbles> := [
    Nibbles(0, 1), Nibbles(1, 2), Nibbles(1, 2), Nibbles(1, 1), Nibbles(1, 2), Nibbles(2, 1),
    Nibbles(1, 1), Nibbles(2, 2), Nibbles(1, 1), Nibbles(1, 1), Nibbles(1, 1), Nibbles(1, 1),
    Nibbles(1, 1), Nibbles(1, 2), Nibbles(1, 1), Nibbles(1, 1), Nibbles(2, 1), Nibbles(2, 1),
    Nibbles(2, 1), Nibbles(1, 1), Nibbles(2, 1), Nibbles(2, 1), Nibbles(1, 1), Nibbles(1, 1),
    Nibbles(1, 1)]
  const code_fujitsu_tv_MUTE: seq<Nibbles> := [
    Nibbles(0, 1), Nibbles(1, 2), Nibbles(1, 2), Nibbles(1, 1), Nibbles(1, 2), Nibbles(2, 1),
    Nibbles(1, 1), Nibbles(2, 2), Nibbles(1, 1), Nibbles(1, 1), Nibbles(1, 1), Nibbles(1, 1),
    Nibbles(1, 1), Nibbles(1, 2), Nibbles(1, 1), Nibbles(1, 1), Nibbles(2, 1), Nibbles(1, 2),
    Nibbles(2, 1), Nibbles(1, 1), Nibbles(2, 1), Nibbles(2, 1), Nibbles(1, 2), Nibbles(1, 1),
    Nibbles(1, 1)]
  const code_fujitsu_tv_VOLUME_UP: seq<Nibbles> := [
    Nibbles(0, 1), Nibbles(1, 2), Nibbles(1, 2), Nibbles(1, 1), Nibbles(1, 2), Nibbles(2, 1),
    Nibbles(1, 1), Nibbles(2, 2), Nibbles(1, 1), Nibbles(1, 1), Nibbles(1, 1), Nibbles(1, 1),
    Nibbles(1, 1), Nibbles(1, 2), Nibbles(1, 1), Nibbles(1, 1), Nibbles(2, 1), Nibbles(1, 2),
    Nibbles(2, 1), Nibbles(1, 1), Nibbles(2, 1), Nibbles(1, 1), Nibbles(1, 2), Nibbles(1, 1),
    Nibbles(1, 1)]
  const code_fujitsu_tv_VOLUME_DOWN: seq<Nibbles> := [
    Nibbles(0, 1), Nibbles(1, 2), Nibbles(1, 2), Nibbles(1, 1), Nibbles(1, 2), Nibbles(2, 1),
    Nibbles(1, 1), Nibbles(2, 2), Nibbles(1, 1), Nibbles(1, 1), Nibbles(1, 1), Nibbles(1, 1),
    Nibbles(1, 1), Nibbles(1, 2), Nibbles(1, 1), Nibbles(1, 1), Nibbles(2, 1), Nibbles(1, 2),
    Nibbles(2, 1), Nibbles(1, 1), Nibbles(2, 2), Nibbles(1, 1), Nibbles(1, 2), Nibbles(1, 1),
    Nibbles(1, 1)]
  const code_fujitsu_tv_CHANNEL_UP: seq<Nibbles> := [
    Nibbles(0, 1), Nibbles(1, 2), Nibbles(1, 2), Nibbles(1, 1), Nibbles(1, 2), Nibbles(2, 1),
    Nibbles(1, 1), Nibbles(2, 2), Nibbles(1, 1), Nibbles(1, 1), Nibbles(1, 1), Nibbles(1, 1),
    Nibbles(1, 1), Nibbles(1, 2), Nibbles(1, 1), Nibbles(1, 1), Nibbles(2, 2), Nibbles(1, 2),
    Nibbles(2, 1), Nibbles(1, 1), Nibbles(2, 2), Nibbles(2, 1), Nibbles(2, 1), Nibbles(1, 1),
    Nibbles(1, 1)]
  const code_fujitsu_tv_CHANNEL_DOWN: seq<Nibbles> := [
    Nibbles(0, 1), Nibbles(1, 2), Nibbles(1, 2), Nibbles(1, 1), Nibbles(1, 2), Nibbles(2, 1),
    Nibbles(1, 1), Nibbles(2, 2), Nibbles(1, 1), Nibbles(1, 1), Nibbles(1, 1), Nibbles(1, 1),
    Nibbles(1, 1), Nibbles(1, 2), Nibbles(1, 1), Nibbles(1, 1), Nibbles(2, 2), Nibbles(1, 2),
    Nibbles(2, 1), Nibbles(1, 1), Nibbles(2, 1), Nibbles(1, 2), Nibbles(2, 1), Nibbles(1, 1),
    Nibbles(1, 1)]

  const dict_toshiba_tv: seq<BurstPair> := [
    BurstPair(343, 172), BurstPair(21, 22), BurstPair(21, 65)]
  const code_toshiba_tv_POWER_ON: seq<Nibbles> := [
    Nibbles(0, 1), Nibbles(1, 1), Nibbles(1, 1), Nibbles(1, 2), Nibbles(1, 1), Nibbles(1, 1),
    Nibbles(1, 1), Nibbles(1, 1), Nibbles(1, 2), Nibbles(2, 2), Nibbles(2, 2), Nibbles(2, 2),
    Nibbles(1, 1), Nibbles(1, 1), Nibbles(1, 1), Nibbles(1, 1), Nibbles(2, 1)]
  const code_toshiba_tv_POWER_OFF: seq<Nibbles> := [
    Nibbles(0, 1), Nibbles(1, 1), Nibbles(1, 1), Nibbles(1, 2), Nibbles(1, 1), Nibbles(1, 1),
    Nibbles(1, 1), Nibbles(1, 1), Nibbles(1, 1), Nibbles(2, 2), Nibbles(2, 2), Nibbles(2, 2),
    Nibbles(1, 2), Nibbles(1, 1), Nibbles(1, 1), Nibbles(1, 1), Nibbles(2, 1)]
  const code_toshiba_tv_MUTE: seq<Nibbles> := [
    Nibbles(0, 1), Nibbles(1, 1), Nibbles(1, 1), Nibbles(1, 2), Nibbles(1, 1), Nibbles(1, 1),
    Nibbles(1, 1), Nibbles(1, 1), Nibbles(1, 1), Nibbles(1, 1), Nibbles(1, 2), Nibbles(1, 1),
    Nibbles(1, 2), Nibbles(2, 2), Nibbles(2, 1), Nibbles(2, 2), Nibbles(2, 1)]
  const code_toshiba_tv_VOLUME_UP: seq<Nibbles> := [
    Nibbles(0, 1), Nibbles(1, 1), Nibbles(1, 1), Nibbles(1, 2), Nibbles(1, 1), Nibbles(1, 1),
    Nibbles(1, 1), Nibbles(1, 1), Nibbles(1, 1), Nibbles(2, 1), Nibbles(2, 2), Nibbles(1, 1),
    Nibbles(1, 2), Nibbles(1, 2), Nibbles(1, 1), Nibbles(2, 2), Nibbles(2, 1)]
  const code_toshiba_tv_VOLUME_DOWN: seq<Nibbles> := [
    Nibbles(0, 1), Nibbles(1, 1), Nibbles(1, 1), Nibbles(1, 2), Nibbles(1, 1), Nibbles(1, 1),
    Nibbles(1, 1), Nibbles(1, 1), Nibbles(1, 1), Nibbles(2, 2), Nibbles(2, 2), Nibbles(1, 1),
    Nibbles(1, 2), Nibbles(1, 1), Nibbles(1, 1), Nibbles(2, 2), Nibbles(2, 1)]
  const code_toshiba_tv_CHANNEL_UP: seq<Nibbles> := [
    Nibbles(0, 1), Nibbles(1, 1), Nibbles(1, 1), Nibbles(1, 2), Nibbles(1, 1), Nibbles(1, 1),
    Nibbles(1, 1), Nibbles(1, 1), Nibbles(1, 2), Nibbles(2, 1), Nibbles(2, 2), Nibbles(1, 1),
    Nibbles(1, 1), Nibbles(1, 2), Nibbles(1, 1), Nibbles(2, 2), Nibbles(2, 1)]
  const code_toshiba_tv_CHANNEL_DOWN: seq<Nibbles> := [
    Nibbles(0, 1), Nibbles(1, 1), Nibbles(1, 1), Nibbles(1, 2), Nibbles(1, 1), Nibbles(1, 1),
    Nibbles(1, 1), Nibbles(1, 1), Nibbles(1, 2), Nibbles(2, 2), Nibbles(2, 2), Nibbles(1, 1),
    Nibbles(1, 1), Nibbles(1, 1), Nibbles(1, 1), Nibbles(2, 2), Nibbles(2, 1)]

  const dict_sanyo_tv: seq<BurstPair> := [BurstPair(343, 172), BurstPair(21, 22), BurstPair(21, 65)]
  const code_sanyo_tv_POWER_ON: seq<Nibbles> := [
    Nibbles(0, 1), Nibbles(1, 1), Nibbles(2, 2), Nibbles(2, 1), Nibbles(1, 2), Nibbles(2, 2),
    Nibbles(1, 1), Nibbles(1, 2), Nibbles(2, 1), Nibbles(2, 1), Nibbles(1, 2), Nibbles(1, 1),
    Nibbles(1, 2), Nibbles(1, 2), Nibbles(2, 1), Nibbles(2, 2), Nibbles(2, 1)]
  const code_sanyo_tv_POWER_OFF: seq<Nibbles> := [
    Nibbles(0, 1), Nibbles(1, 1), Nibbles(2, 2), Nibbles(2, 1), Nibbles(1, 2), Nibbles(2, 2),
    Nibbles(1, 1), Nibbles(1, 2), Nibbles(2, 1), Nibbles(2, 2), Nibbles(1, 2), Nibbles(2, 2),
    Nibbles(1, 2), Nibbles(1, 1), Nibbles(2, 1), Nibbles(1, 1), Nibbles(2, 1)]
  const code_sanyo_tv_MUTE: seq<Nibbles> := [
    Nibbles(0, 1), Nibbles(1, 1), Nibbles(2, 2), Nibbles(2, 1), Nibbles(1, 2), Nibbles(2, 2),
    Nibbles(1, 1), Nibbles(1, 2), Nibbles(2, 1), Nibbles(1, 1), Nibbles(2, 2), Nibbles(1, 1),
    Nibbles(1, 2), Nibbles(2, 2), Nibbles(1, 1), Nibbles(2, 2), Nibbles(2, 1)]
  const code_sanyo_tv_VOLUME_UP: seq<Nibbles> := [
    Nibbles(0, 1), Nibbles(1, 1), Nibbles(2, 2), Nibbles(2, 1), Nibbles(1, 2), Nibbles(2, 2),
    Nibbles(1, 1), Nibbles(1, 2), Nibbles(2, 1), Nibbles(2, 2), Nibbles(2, 1), Nibbles(1, 1),
    Nibbles(1, 2), Nibbles(1, 1), Nibbles(1, 2), Nibbles(2, 2), Nibbles(2, 1)]
  const code_sanyo_tv_VOLUME_DOWN: seq<Nibbles> := [
    Nibbles(0, 1), Nibbles(1, 1), Nibbles(2, 2), Nibbles(2, 1), Nibbles(1, 2), Nibbles(2, 2),
    Nibbles(1, 1), Nibbles(1, 2), Nibbles(2, 2), Nibbles(2, 2), Nibbles(2, 1), Nibbles(1, 1),
    Nibbles(1, 1), Nibbles(1, 1), Nibbles(1, 2), Nibbles(2, 2), Nibbles(2, 1)]
  const code_sanyo_tv_CHANNEL_UP: seq<Nibbles> := [
    Nibbles(0, 1), Nibbles(1, 1), Nibbles(2, 2), Nibbles(2, 1), Nibbles(1, 2), Nibbles(2, 2),
    Nibbles(1, 1), Nibbles(1, 2), Nibbles(2, 1), Nibbles(2, 1), Nibbles(2, 1), Nibbles(1, 1),
    Nibbles(1, 2), Nibbles(1, 2), Nibbles(1, 2), Nibbles(2, 2), Nibbles(2, 1)]
  const code_sanyo_tv_CHANNEL_DOWN: seq<Nibbles> := [
    Nibbles(0, 1), Nibbles(1, 1), Nibbles(2, 2), Nibbles(2, 1), Nibbles(1, 2), Nibbles(2, 2),
    Nibbles(1, 1), Nibbles(1, 2), Nibbles(2, 2), Nibbles(2, 1), Nibbles(2, 1), Nibbles(1, 1),
    Nibbles(1, 1), Nibbles(1, 2), Nibbles(1, 2), Nibbles(2, 2), Nibbles(2, 1)]

  const dict_jvc_tv: seq<BurstPair> := [BurstPair(321, 160), BurstPair(20, 60), BurstPair(20, 20)]
  const code_jvc_tv_POWER_ON: seq<Nibbles> := [
    Nibbles(0, 1), Nibbles(1, 2), Nibbles(2, 1), Nibbles(2, 1), Nibbles(2, 1), Nibbles(2, 1),
    Nibbles(1, 1), Nibbles(2, 2), Nibbles(2, 2)]
  const code_jvc_tv_POWER_OFF: seq<Nibbles> := [
    Nibbles(0, 1), Nibbles(1, 2), Nibbles(2, 1), Nibbles(2, 1), Nibbles(2, 2), Nibbles(1, 2),
    Nibbles(1, 1), Nibbles(2, 2), Nibbles(2, 2)]
  const code_jvc_tv_MUTE: seq<Nibbles> := [
    Nibbles(0, 1), Nibbles(1, 2), Nibbles(2, 1), Nibbles(2, 1), Nibbles(2, 2), Nibbles(2, 1),
    Nibbles(1, 1), Nibbles(2, 2), Nibbles(2, 2)]
  const code_jvc_tv_VOLUME_UP: seq<Nibbles> := [
    Nibbles(0, 1), Nibbles(1, 2), Nibbles(2, 1), Nibbles(2, 1), Nibbles(2, 2), Nibbles(1, 1),
    Nibbles(1, 1), Nibbles(2, 2), Nibbles(2, 2)]
  const code_jvc_tv_VOLUME_DOWN: seq<Nibbles> := [
    Nibbles(0, 1), Nibbles(1, 2), Nibbles(2, 1), Nibbles(2, 1), Nibbles(2, 1), Nibbles(1, 1),
    Nibbles(1, 1), Nibbles(2, 2), Nibbles(2, 2)]
  const code_jvc_tv_CHANNEL_UP: seq<Nibbles> := [
    Nibbles(0, 1), Nibbles(1, 2), Nibbles(2, 1), Nibbles(2, 1), Nibbles(2, 1), Nibbles(2, 2),
    Nibbles(1, 1), Nibbles(2, 2), Nibbles(2, 2)]
  const code_jvc_tv_CHANNEL_DOWN: seq<Nibbles> := [
    Nibbles(0, 1), Nibbles(1, 2), Nibbles(2, 1), Nibbles(2, 1), Nibbles(2, 2), Nibbles(2, 2),
    Nibbles(1, 1), Nibbles(2, 2), Nibbles(2, 2)]

  const dict_rca_tv: seq<BurstPair> := [
    BurstPair(1152, 217), BurstPair(29, 55), BurstPair(63, 458), BurstPair(232, 1),
    BurstPair(29, 111)]
  const code_rca_tv_POWER_ON: seq<Nibbles> := [
    Nibbles(0, 4), Nibbles(4, 4), Nibbles(4, 1), Nibbles(1, 4), Nibbles(4, 4), Nibbles(1, 4),
    Nibbles(1, 1), Nibbles(1, 1), Nibbles(1, 4), Nibbles(4, 1), Nibbles(1, 1), Nibbles(4, 1),
    Nibbles(4, 2), Nibbles(3, 0)]
  const code_rca_tv_POWER_OFF: seq<Nibbles> := [
    Nibbles(0, 4), Nibbles(4, 4), Nibbles(4, 1), Nibbles(1, 4), Nibbles(4, 4), Nibbles(1, 4),
    Nibbles(4, 1), Nibbles(1, 1), Nibbles(1, 4), Nibbles(4, 1), Nibbles(1, 1), Nibbles(4, 1),
    Nibbles(1, 2), Nibbles(3, 0)]
  const code_rca_tv_MUTE: seq<Nibbles> := [
    Nibbles(0, 4), Nibbles(4, 4), Nibbles(4, 1), Nibbles(1, 4), Nibbles(4, 4), Nibbles(4, 4),
    Nibbles(4, 1), Nibbles(1, 1), Nibbles(1, 4), Nibbles(4, 1), Nibbles(1, 1), Nibbles(1, 1),
    Nibbles(1, 2), Nibbles(3, 0)]
  const code_rca_tv_VOLUME_UP: seq<Nibbles> := [
    Nibbles(0, 4), Nibbles(4, 4), Nibbles(4, 1), Nibbles(1, 4), Nibbles(1, 4), Nibbles(4, 4),
    Nibbles(4, 1), Nibbles(1, 1), Nibbles(1, 4), Nibbles(4, 1), Nibbles(4, 1), Nibbles(1, 1),
    Nibbles(1, 2), Nibbles(3, 0)]
  const code_rca_tv_VOLUME_DOWN: seq<Nibbles> := [
    Nibbles(0, 4), Nibbles(4, 4), Nibbles(4, 1), Nibbles(1, 4), Nibbles(1, 4), Nibbles(4, 4),
    Nibbles(1, 1), Nibbles(1, 1), Nibbles(1, 4), Nibbles(4, 1), Nibbles(4, 1), Nibbles(1, 1),
    Nibbles(4, 2), Nibbles(3, 0)]
  const code_rca_tv_CHANNEL_UP: seq<Nibbles> := [
    Nibbles(0, 4), Nibbles(4, 4), Nibbles(4, 1), Nibbles(1, 4), Nibbles(1, 4), Nibbles(4, 1),
    Nibbles(4, 1), Nibbles(1, 1), Nibbles(1, 4), Nibbles(4, 1), Nibbles(4, 1), Nibbles(1, 4),
    Nibbles(1, 2), Nibbles(3, 0)]
  const code_rca_tv_CHANNEL_DOWN: seq<Nibbles> := [
    Nibbles(0, 4), Nibbles(4, 4), Nibbles(4, 1), Nibbles(1, 4), Nibbles(1, 4), Nibbles(4, 1),
    Nibbles(1, 1), Nibbles(1, 1), Nibbles(1, 4), Nibbles(4, 1), Nibbles(4, 1), Nibbles(1, 4),
    Nibbles(4, 2), Nibbles(3, 0)]

  // projectors

  const dict_sharp_projector: seq<BurstPair> := [
    BurstPair(10, 70), BurstPair(10, 30), BurstPair(10, 1657)]
  const code_sharp_projector_POWER_STANDBY: seq<Nibbles> := [
    Nibbles(0, 1), Nibbles(0, 0), Nibbles(1, 0), Nibbles(0, 1), Nibbles(0, 1), Nibbles(1, 1),
    Nibbles(0, 0), Nibbles(1, 2), Nibbles(0, 1), Nibbles(0, 0), Nibbles(1, 1), Nibbles(1, 0),
    Nibbles(1, 0), Nibbles(0, 0), Nibbles(1, 1), Nibbles(0, 1)]
  const code_sharp_projector_POWER_ON: seq<Nibbles> := [
    Nibbles(0, 1), Nibbles(0, 0), Nibbles(1, 1), Nibbles(0, 0), Nibbles(1, 0), Nibbles(1, 0),
    Nibbles(1, 0), Nibbles(1, 2), Nibbles(0, 1), Nibbles(0, 0), Nibbles(1, 0), Nibbles(1, 1),
    Nibbles(0, 1), Nibbles(0, 1), Nibbles(0, 1), Nibbles(0, 1)]
  const code_sharp_projector_VOLUME_UP: seq<Nibbles> := [
    Nibbles(0, 1), Nibbles(0, 0), Nibbles(1, 1), Nibbles(1, 0), Nibbles(1, 0), Nibbles(1, 1),
    Nibbles(1, 0), Nibbles(1, 2), Nibbles(0, 1), Nibbles(0, 0), Nibbles(1, 0), Nibbles(0, 1),
    Nibbles(0, 1), Nibbles(0, 0), Nibbles(0, 1), Nibbles(0, 1)]
  const code_sharp_projector_VOLUME_DOWN: seq<Nibbles> := [
    Nibbles(0, 1), Nibbles(0, 0), Nibbles(1, 0), Nibbles(1, 0), Nibbles(1, 0), Nibbles(1, 1),
    Nibbles(1, 0), Nibbles(1, 2), Nibbles(0, 1), Nibbles(0, 0), Nibbles(1, 1), Nibbles(0, 1),
    Nibbles(0, 1), Nibbles(0, 0), Nibbles(0, 1), Nibbles(0, 1)]

  // Command tables (TVs), manufacturers in the firmware's order of prevalence

  const POWER_ON: seq<IRCode> := [
    IRCode(dict_samsung_tv, code_samsung_tv_POWER_ON, 34, 13),
    IRCode(dict_lge_tv, code_lge_tv_POWER_ON, 34, 13),
    IRCode(dict_sony_tv, code_sony_tv_POWER_ON, 13, 12),
    IRCode(dict_panasonic_tv, code_panasonic_tv_POWER_ON, 50, 14),
    IRCode(dict_sharp_tv, code_sharp_tv_POWER_ON, 16, 13),
    IRCode(dict_philips_tv, code_philips_tv_POWER_ON, 13, 14),
    IRCode(dict_vizio_tv, code_vizio_tv_POWER_ON, 34, 13),
    IRCode(dict_pioneer_tv, code_pioneer_tv_POWER_ON, 34, 13),
    IRCode(dict_mitsubishi_tv, code_mitsubishi_tv_POWER_ON, 17, 15),
    IRCode(dict_fujitsu_tv, code_fujitsu_tv_POWER_ON, 50, 13),
    IRCode(dict_toshiba_tv, code_toshiba_tv_POWER_ON, 34, 13),
    IRCode(dict_sanyo_tv, code_sanyo_tv_POWER_ON, 34, 13),
    IRCode(dict_jvc_tv, code_jvc_tv_POWER_ON, 18, 13),
    IRCode(dict_rca_tv, code_rca_tv_POWER_ON, 27, 9)
  ]
  const POWER_ON_TOTAL: Byte := NumElem(POWER_ON, RecordLayout.RECORD_SIZE)

  const POWER_OFF: seq<IRCode> := [
    IRCode(dict_samsung_tv, code_samsung_tv_POWER_OFF, 34, 13),
    IRCode(dict_lge_tv, code_lge_tv_POWER_OFF, 34, 13),
    IRCode(dict_sony_tv, code_sony_tv_POWER_OFF, 13, 12),
    IRCode(dict_panasonic_tv, code_panasonic_tv_POWER_OFF, 50, 14),
    IRCode(dict_sharp_tv, code_sharp_tv_POWER_OFF, 16, 13),
    IRCode(dict_philips_tv, code_philips_tv_POWER_OFF, 12, 14),
    IRCode(dict_vizio_tv, code_vizio_tv_POWER_OFF, 34, 13),
    IRCode(dict_pioneer_tv, code_pioneer_tv_POWER_OFF, 34, 13),
    IRCode(dict_mitsubishi_tv, code_mitsubishi_tv_POWER_OFF, 17, 15),
    IRCode(dict_fujitsu_tv, code_fujitsu_tv_POWER_OFF, 50, 13),
    IRCode(dict_toshiba_tv, code_toshiba_tv_POWER_OFF, 34, 13),
    IRCode(dict_sanyo_tv, code_sanyo_tv_POWER_OFF, 34, 13),
    IRCode(dict_jvc_tv, code_jvc_tv_POWER_OFF, 18, 13),
    IRCode(dict_rca_tv, code_rca_tv_POWER_OFF, 27, 9)
  ]
  const POWER_OFF_TOTAL: Byte := NumElem(POWER_OFF, RecordLayout.RECORD_SIZE)

  // Vizio has no entry: the firmware comments it out (it names a code
  // `code_vizio_tv_MUTE`, while only MUTE_ON and MUTE_OFF codes exist).
  const MUTE: seq<IRCode> := [
    IRCode(dict_samsung_tv, code_samsung_tv_MUTE, 34, 13),
    IRCode(dict_lge_tv, code_lge_tv_MUTE, 34, 13),
    IRCode(dict_sony_tv, code_sony_tv_MUTE, 13, 12),
    IRCode(dict_panasonic_tv, code_panasonic_tv_MUTE, 50, 14),
    IRCode(dict_sharp_tv, code_sharp_tv_MUTE, 16, 13),
    IRCode(dict_philips_tv, code_philips_tv_MUTE, 12, 14),
    IRCode(dict_pioneer_tv, code_pioneer_tv_MUTE, 34, 13),
    IRCode(dict_mitsubishi_tv, code_mitsubishi_tv_MUTE, 17, 15),
    IRCode(dict_fujitsu_tv, code_fujitsu_tv_MUTE, 50, 13),
    IRCode(dict_toshiba_tv, code_toshiba_tv_MUTE, 34, 13),
    IRCode(dict_sanyo_tv, code_sanyo_tv_MUTE, 34, 13),
    IRCode(dict_jvc_tv, code_jvc_tv_MUTE, 18, 13),
    IRCode(dict_rca_tv, code_rca_tv_MUTE, 27, 9)
  ]
  const MUTE_TOTAL: Byte := NumElem(MUTE, RecordLayout.RECORD_SIZE)

  const VOLUME_UP: seq<IRCode> := [
    IRCode(dict_samsung_tv, code_samsung_tv_VOLUME_UP, 34, 13),
    IRCode(dict_lge_tv, code_lge_tv_VOLUME_UP, 34, 13),
    IRCode(dict_sony_tv, code_sony_tv_VOLUME_UP, 13, 12),
    IRCode(dict_panasonic_tv, code_panasonic_tv_VOLUME_UP, 50, 14),
    IRCode(dict_sharp_tv, code_sharp_tv_VOLUME_UP, 16, 13),
    IRCode(dict_philips_tv, code_philips_tv_VOLUME_UP, 12, 14),
    IRCode(dict_vizio_tv, code_vizio_tv_VOLUME_UP, 34, 13),
    IRCode(dict_pioneer_tv, code_pioneer_tv_VOLUME_UP, 34, 13),
    IRCode(dict_mitsubishi_tv, code_mitsubishi_tv_VOLUME_UP, 17, 15),
    IRCode(dict_fujitsu_tv, code_fujitsu_tv_VOLUME_UP, 50, 13),
    IRCode(dict_toshiba_tv, code_toshiba_tv_VOLUME_UP, 34, 13),
    IRCode(dict_sanyo_tv, code_sanyo_tv_VOLUME_UP, 34, 13),
    IRCode(dict_jvc_tv, code_jvc_tv_VOLUME_UP, 18, 13),
    IRCode(dict_rca_tv, code_rca_tv_VOLUME_UP, 27, 9)
  ]
  const VOLUME_UP_TOTAL: Byte := NumElem(VOLUME_UP, RecordLayout.RECORD_SIZE)

  const VOLUME_DOWN: seq<IRCode> := [
    IRCode(dict_samsung_tv, code_samsung_tv_VOLUME_DOWN, 34, 13),
    IRCode(dict_lge_tv, code_lge_tv_VOLUME_DOWN, 34, 13),
    IRCode(dict_sony_tv, code_sony_tv_VOLUME_DOWN, 13, 12),
    IRCode(dict_panasonic_tv, code_panasonic_tv_VOLUME_DOWN, 50, 14),
    IRCode(dict_sharp_tv, code_sharp_tv_VOLUME_DOWN, 16, 13),
    IRCode(dict_philips_tv, code_philips_tv_VOLUME_DOWN, 12, 14),
    IRCode(dict_vizio_tv, code_vizio_tv_VOLUME_DOWN, 34, 13),
    IRCode(dict_pioneer_tv, code_pioneer_tv_VOLUME_DOWN, 34, 13),
    IRCode(dict_mitsubishi_tv, code_mitsubishi_tv_VOLUME_DOWN, 17, 15),
    IRCode(dict_fujitsu_tv, code_fujitsu_tv_VOLUME_DOWN, 50, 13),
    IRCode(dict_toshiba_tv, code_toshiba_tv_VOLUME_DOWN, 34, 13),
    IRCode(dict_sanyo_tv, code_sanyo_tv_VOLUME_DOWN, 34, 13),
    IRCode(dict_jvc_tv, code_jvc_tv_VOLUME_DOWN, 18, 13),
    IRCode(dict_rca_tv, code_rca_tv_VOLUME_DOWN, 27, 9)
  ]
  const VOLUME_DOWN_TOTAL: Byte := NumElem(VOLUME_DOWN, RecordLayout.RECORD_SIZE)

  const CHANNEL_UP: seq<IRCode> := [
    IRCode(dict_samsung_tv, code_samsung_tv_CHANNEL_UP, 34, 13),
    IRCode(dict_lge_tv, code_lge_tv_CHANNEL_UP, 34, 13),
    IRCode(dict_sony_tv, code_sony_tv_CHANNEL_UP, 13, 12),
    IRCode(dict_panasonic_tv, code_panasonic_tv_CHANNEL_UP, 50, 14),
    IRCode(dict_sharp_tv, code_sharp_tv_CHANNEL_UP, 16, 13),
    IRCode(dict_philips_tv, code_philips_tv_CHANNEL_UP, 12, 14),
    IRCode(dict_vizio_tv, code_vizio_tv_CHANNEL_UP, 34, 13),
    IRCode(dict_pioneer_tv, code_pioneer_tv_CHANNEL_UP, 34, 13),
    IRCode(dict_mitsubishi_tv, code_mitsubishi_tv_CHANNEL_UP, 17, 15),
    IRCode(dict_fujitsu_tv, code_fujitsu_tv_CHANNEL_UP, 50, 13),
    IRCode(dict_toshiba_tv, code_toshiba_tv_CHANNEL_UP, 34, 13),
    IRCode(dict_sanyo_tv, code_sanyo_tv_CHANNEL_UP, 34, 13),
    IRCode(dict_jvc_tv, code_jvc_tv_CHANNEL_UP, 18, 13),
    IRCode(dict_rca_tv, code_rca_tv_CHANNEL_UP, 27, 9)
  ]
  const CHANNEL_UP_TOTAL: Byte := NumElem(CHANNEL_UP, RecordLayout.RECORD_SIZE)

  const CHANNEL_DOWN: seq<IRCode> := [
    IRCode(dict_samsung_tv, code_samsung_tv_CHANNEL_DOWN, 34, 13),
    IRCode(dict_lge_tv, code_lge_tv_CHANNEL_DOWN, 34, 13),
    IRCode(dict_sony_tv, code_sony_tv_CHANNEL_DOWN, 13, 12),
    IRCode(dict_panasonic_tv, code_panasonic_tv_CHANNEL_DOWN, 50, 14),
    IRCode(dict_sharp_tv, code_sharp_tv_CHANNEL_DOWN, 16, 13),
    IRCode(dict_philips_tv, code_philips_tv_CHANNEL_DOWN, 12, 14),
    IRCode(dict_vizio_tv, code_vizio_tv_CHANNEL_DOWN, 34, 13),
    IRCode(dict_pioneer_tv, code_pioneer_tv_CHANNEL_DOWN, 34, 13),
    IRCode(dict_mitsubishi_tv, code_mitsubishi_tv_CHANNEL_DOWN, 17, 15),
    IRCode(dict_fujitsu_tv, code_fujitsu_tv_CHANNEL_DOWN, 50, 13),
    IRCode(dict_toshiba_tv, code_toshiba_tv_CHANNEL_DOWN, 34, 13),
    IRCode(dict_sanyo_tv, code_sanyo_tv_CHANNEL_DOWN, 34, 13),
    IRCode(dict_jvc_tv, code_jvc_tv_CHANNEL_DOWN, 18, 13),
    IRCode(dict_rca_tv, code_rca_tv_CHANNEL_DOWN, 27, 9)
  ]
  const CHANNEL_DOWN_TOTAL: Byte := NumElem(CHANNEL_DOWN, RecordLayout.RECORD_SIZE)

  // Command tables (projectors)

  const PROJ_POWER_STANDBY: seq<IRCode> := [
    IRCode(dict_sharp_projector, code_sharp_projector_POWER_STANDBY, 32, 13)
  ]
  const PROJ_POWER_STANDBY_TOTAL: Byte := NumElem(PROJ_POWER_STANDBY, RecordLayout.RECORD_SIZE)

  const PROJ_POWER_ON: seq<IRCode> := [
    IRCode(dict_sharp_projector, code_sharp_projector_POWER_ON, 32, 13)
  ]
  // The firmware counts PROJ_POWER_ON under the name PROJ_POWER_OFF_TOTAL.
  const PROJ_POWER_OFF_TOTAL: Byte := NumElem(PROJ_POWER_ON, RecordLayout.RECORD_SIZE)

  const PROJ_VOLUME_UP: seq<IRCode> := [
    IRCode(dict_sharp_projector, code_sharp_projector_VOLUME_UP, 32, 13)
  ]
  const PROJ_VOLUME_UP_TOTAL: Byte := NumElem(PROJ_VOLUME_UP, RecordLayout.RECORD_SIZE)

  const PROJ_VOLUME_DOWN: seq<IRCode> := [
    IRCode(dict_sharp_projector, code_sharp_projector_VOLUME_DOWN, 32, 13)
  ]
  const PROJ_VOLUME_DOWN_TOTAL: Byte := NumElem(PROJ_VOLUME_DOWN, RecordLayout.RECORD_SIZE)

  /** A record as the tables hold it: decodable, its storage exactly as long
      as its length needs (an odd length leaves only the last `lo` unused),
      and its dictionary within reach of a 4-bit index. */
  predicate Authored(r: IRCode)
  {
    WellFormed(r) && BytesFor(r.codeLength) == |r.code| && 0 < |r.dict| <= DICT_CAPACITY
  }

  predicate AllAuthored(table: seq<IRCode>)
  {
    forall k :: 0 <= k < |table| ==> Authored(table[k])
  }

  /** A record whose storage is exactly as long as its length needs and whose
      every stored index names a dictionary entry is authored. */
  lemma AuthoredByIndices(r: IRCode)
    requires BytesFor(r.codeLength) == |r.code| && 0 < |r.dict| <= DICT_CAPACITY
    requires IndicesWithin(r.code, |r.dict|)
    ensures Authored(r)
  {
    FitsByIndices(|r.dict|, r.code, r.codeLength);
  }

  /** Every index stored in the Samsung codes names an entry of `dict_samsung_tv`. */
  lemma SamsungCodesWithinDictionary()
    ensures IndicesWithin(code_samsung_tv_POWER_ON, |dict_samsung_tv|)
    ensures IndicesWithin(code_samsung_tv_POWER_OFF, |dict_samsung_tv|)
    ensures IndicesWithin(code_samsung_tv_MUTE, |dict_samsung_tv|)
    ensures IndicesWithin(code_samsung_tv_VOLUME_UP, |dict_samsung_tv|)
    ensures IndicesWithin(code_samsung_tv_VOLUME_DOWN, |dict_samsung_tv|)
    ensures IndicesWithin(code_samsung_tv_CHANNEL_UP, |dict_samsung_tv|)
    ensures IndicesWithin(code_samsung_tv_CHANNEL_DOWN, |dict_samsung_tv|)
  {
  }

  /** Every index stored in the Lge codes names an entry of `dict_lge_tv`. */
  lemma LgeCodesWithinDictionary()
    ensures IndicesWithin(code_lge_tv_POWER_ON, |dict_lge_tv|)
    ensures IndicesWithin(code_lge_tv_POWER_OFF, |dict_lge_tv|)
    ensures IndicesWithin(code_lge_tv_MUTE, |dict_lge_tv|)
    ensures IndicesWithin(code_lge_tv_VOLUME_UP, |dict_lge_tv|)
    ensures IndicesWithin(code_lge_tv_VOLUME_DOWN, |dict_lge_tv|)
    ensures IndicesWithin(code_lge_tv_CHANNEL_UP, |dict_lge_tv|)
    ensures IndicesWithin(code_lge_tv_CHANNEL_DOWN, |dict_lge_tv|)
  {
  }

  /** Every index stored in the Sony codes names an entry of `dict_sony_tv`. */
  lemma SonyCodesWithinDictionary()
    ensures IndicesWithin(code_sony_tv_POWER_ON, |dict_sony_tv|)
    ensures IndicesWithin(code_sony_tv_POWER_OFF, |dict_sony_tv|)
    ensures IndicesWithin(code_sony_tv_MUTE, |dict_sony_tv|)
    ensures IndicesWithin(code_sony_tv_VOLUME_UP, |dict_sony_tv|)
    ensures IndicesWithin(code_sony_tv_VOLUME_DOWN, |dict_sony_tv|)
    ensures IndicesWithin(code_sony_tv_CHANNEL_UP, |dict_sony_tv|)
    ensures IndicesWithin(code_sony_tv_CHANNEL_DOWN, |dict_sony_tv|)
  {
  }

  /** Every index stored in the Panasonic codes names an entry of `dict_panasonic_tv`. */
  lemma PanasonicPowerCodesWithinDictionary()
    ensures IndicesWithin(code_panasonic_tv_POWER_ON, |dict_panasonic_tv|)
    ensures IndicesWithin(code_panasonic_tv_POWER_OFF, |dict_panasonic_tv|)
    ensures IndicesWithin(code_panasonic_tv_MUTE, |dict_panasonic_tv|)
  {
  }

  /** Every index stored in the Panasonic codes names an entry of `dict_panasonic_tv`. */
  lemma PanasonicVolumeCodesWithinDictionary()
    ensures IndicesWithin(code_panasonic_tv_VOLUME_UP, |dict_panasonic_tv|)
    ensures IndicesWithin(code_panasonic_tv_VOLUME_DOWN, |dict_panasonic_tv|)
    ensures IndicesWithin(code_panasonic_tv_CHANNEL_UP, |dict_panasonic_tv|)
    ensures IndicesWithin(code_panasonic_tv_CHANNEL_DOWN, |dict_panasonic_tv|)
  {
  }

  /** Every index stored in the Sharp codes names an entry of `dict_sharp_tv`. */
  lemma SharpCodesWithinDictionary()
    ensures IndicesWithin(code_sharp_tv_POWER_ON, |dict_sharp_tv|)
    ensures IndicesWithin(code_sharp_tv_POWER_OFF, |dict_sharp_tv|)
    ensures IndicesWithin(code_sharp_tv_MUTE, |dict_sharp_tv|)
    ensures IndicesWithin(code_sharp_tv_VOLUME_UP, |dict_sharp_tv|)
    ensures IndicesWithin(code_sharp_tv_VOLUME_DOWN, |dict_sharp_tv|)
    ensures IndicesWithin(code_sharp_tv_CHANNEL_UP, |dict_sharp_tv|)
    ensures IndicesWithin(code_sharp_tv_CHANNEL_DOWN, |dict_sharp_tv|)
  {
  }

  /** Every index stored in the Philips codes names an entry of `dict_philips_tv`. */
  lemma PhilipsCodesWithinDictionary()
    ensures IndicesWithin(code_philips_tv_POWER_ON, |dict_philips_tv|)
    ensures IndicesWithin(code_philips_tv_POWER_OFF, |dict_philips_tv|)
    ensures IndicesWithin(code_philips_tv_MUTE, |dict_philips_tv|)
    ensures IndicesWithin(code_philips_tv_VOLUME_UP, |dict_philips_tv|)
    ensures IndicesWithin(code_philips_tv_VOLUME_DOWN, |dict_philips_tv|)
    ensures IndicesWithin(code_philips_tv_CHANNEL_UP, |dict_philips_tv|)
    ensures IndicesWithin(code_philips_tv_CHANNEL_DOWN, |dict_philips_tv|)
  {
  }

  /** Every index stored in the Vizio codes names an entry of `dict_vizio_tv`. */
  lemma VizioCodesWithinDictionary()
    ensures IndicesWithin(code_vizio_tv_POWER_ON, |dict_vizio_tv|)
    ensures IndicesWithin(code_vizio_tv_POWER_OFF, |dict_vizio_tv|)
    ensures IndicesWithin(code_vizio_tv_MUTE_ON, |dict_vizio_tv|)
    ensures IndicesWithin(code_vizio_tv_MUTE_OFF, |dict_vizio_tv|)
    ensures IndicesWithin(code_vizio_tv_VOLUME_UP, |dict_vizio_tv|)
    ensures IndicesWithin(code_vizio_tv_VOLUME_DOWN, |dict_vizio_tv|)
    ensures IndicesWithin(code_vizio_tv_CHANNEL_UP, |dict_vizio_tv|)
    ensures IndicesWithin(code_vizio_tv_CHANNEL_DOWN, |dict_vizio_tv|)
  {
  }

  /** Every index stored in the Pioneer codes names an entry of `dict_pioneer_tv`. */
  lemma PioneerCodesWithinDictionary()
    ensures IndicesWithin(code_pioneer_tv_POWER_ON, |dict_pioneer_tv|)
    ensures IndicesWithin(code_pioneer_tv_POWER_OFF, |dict_pioneer_tv|)
    ensures IndicesWithin(code_pioneer_tv_MUTE, |dict_pioneer_tv|)
    ensures IndicesWithin(code_pioneer_tv_VOLUME_UP, |dict_pioneer_tv|)
    ensures IndicesWithin(code_pioneer_tv_VOLUME_DOWN, |dict_pioneer_tv|)
    ensures IndicesWithin(code_pioneer_tv_CHANNEL_UP, |dict_pioneer_tv|)
    ensures IndicesWithin(code_pioneer_tv_CHANNEL_DOWN, |dict_pioneer_tv|)
  {
  }

  /** Every index stored in the Mitsubishi codes names an entry of `dict_mitsubishi_tv`. */
  lemma MitsubishiCodesWithinDictionary()
    ensures IndicesWithin(code_mitsubishi_tv_POWER_ON, |dict_mitsubishi_tv|)
    ensures IndicesWithin(code_mitsubishi_tv_POWER_OFF, |dict_mitsubishi_tv|)
    ensures IndicesWithin(code_mitsubishi_tv_MUTE, |dict_mitsubishi_tv|)
    ensures IndicesWithin(code_mitsubishi_tv_VOLUME_UP, |dict_mitsubishi_tv|)
    ensures IndicesWithin(code_mitsubishi_tv_VOLUME_DOWN, |dict_mitsubishi_tv|)
    ensures IndicesWithin(code_mitsubishi_tv_CHANNEL_UP, |dict_mitsubishi_tv|)
    ensures IndicesWithin(code_mitsubishi_tv_CHANNEL_DOWN, |dict_mitsubishi_tv|)
  {
  }

  /** Every index stored in the Fujitsu codes names an entry of `dict_fujitsu_tv`. */
  lemma FujitsuPowerCodesWithinDictionary()
    ensures IndicesWithin(code_fujitsu_tv_POWER_ON, |dict_fujitsu_tv|)
    ensures IndicesWithin(code_fujitsu_tv_POWER_OFF, |dict_fujitsu_tv|)
    ensures IndicesWithin(code_fujitsu_tv_MUTE, |dict_fujitsu_tv|)
  {
  }

  /** Every index stored in the Fujitsu codes names an entry of `dict_fujitsu_tv`. */
  lemma FujitsuVolumeCodesWithinDictionary()
    ensures IndicesWithin(code_fujitsu_tv_VOLUME_UP, |dict_fujitsu_tv|)
    ensures IndicesWithin(code_fujitsu_tv_VOLUME_DOWN, |dict_fujitsu_tv|)
    ensures IndicesWithin(code_fujitsu_tv_CHANNEL_UP, |dict_fujitsu_tv|)
    ensures IndicesWithin(code_fujitsu_tv_CHANNEL_DOWN, |dict_fujitsu_tv|)
  {
  }

  /** Every index stored in the Toshiba codes names an entry of `dict_toshiba_tv`. */
  lemma ToshibaCodesWithinDictionary()
    ensures IndicesWithin(code_toshiba_tv_POWER_ON, |dict_toshiba_tv|)
    ensures IndicesWithin(code_toshiba_tv_POWER_OFF, |dict_toshiba_tv|)
    ensures IndicesWithin(code_toshiba_tv_MUTE, |dict_toshiba_tv|)
    ensures IndicesWithin(code_toshiba_tv_VOLUME_UP, |dict_toshiba_tv|)
    ensures IndicesWithin(code_toshiba_tv_VOLUME_DOWN, |dict_toshiba_tv|)
    ensures IndicesWithin(code_toshiba_tv_CHANNEL_UP, |dict_toshiba_tv|)
    ensures IndicesWithin(code_toshiba_tv_CHANNEL_DOWN, |dict_toshiba_tv|)
  {
  }

  /** Every index stored in the Sanyo codes names an entry of `dict_sanyo_tv`. */
  lemma SanyoCodesWithinDictionary()
    ensures IndicesWithin(code_sanyo_tv_POWER_ON, |dict_sanyo_tv|)
    ensures IndicesWithin(code_sanyo_tv_POWER_OFF, |dict_sanyo_tv|)
    ensures IndicesWithin(code_sanyo_tv_MUTE, |dict_sanyo_tv|)
    ensures IndicesWithin(code_sanyo_tv_VOLUME_UP, |dict_sanyo_tv|)
    ensures IndicesWithin(code_sanyo_tv_VOLUME_DOWN, |dict_sanyo_tv|)
    ensures IndicesWithin(code_sanyo_tv_CHANNEL_UP, |dict_sanyo_tv|)
    ensures IndicesWithin(code_sanyo_tv_CHANNEL_DOWN, |dict_sanyo_tv|)
  {
  }

  /** Every index stored in the Jvc codes names an entry of `dict_jvc_tv`. */
  lemma JvcCodesWithinDictionary()
    ensures IndicesWithin(code_jvc_tv_POWER_ON, |dict_jvc_tv|)
    ensures IndicesWithin(code_jvc_tv_POWER_OFF, |dict_jvc_tv|)
    ensures IndicesWithin(code_jvc_tv_MUTE, |dict_jvc_tv|)
    ensures IndicesWithin(code_jvc_tv_VOLUME_UP, |dict_jvc_tv|)
    ensures IndicesWithin(code_jvc_tv_VOLUME_DOWN, |dict_jvc_tv|)
    ensures IndicesWithin(code_jvc_tv_CHANNEL_UP, |dict_jvc_tv|)
    ensures IndicesWithin(code_jvc_tv_CHANNEL_DOWN, |dict_jvc_tv|)
  {
  }

  /** Every index stored in the Rca codes names an entry of `dict_rca_tv`. */
  lemma RcaCodesWithinDictionary()
    ensures IndicesWithin(code_rca_tv_POWER_ON, |dict_rca_tv|)
    ensures IndicesWithin(code_rca_tv_POWER_OFF, |dict_rca_tv|)
    ensures IndicesWithin(code_rca_tv_MUTE, |dict_rca_tv|)
    ensures IndicesWithin(code_rca_tv_VOLUME_UP, |dict_rca_tv|)
    ensures IndicesWithin(code_rca_tv_VOLUME_DOWN, |dict_rca_tv|)
    ensures IndicesWithin(code_rca_tv_CHANNEL_UP, |dict_rca_tv|)
    ensures IndicesWithin(code_rca_tv_CHANNEL_DOWN, |dict_rca_tv|)
  {
  }

  /** Every index stored in the Sharp projector codes names an entry of `dict_sharp_projector`. */
  lemma SharpProjectorCodesWithinDictionary()
    ensures IndicesWithin(code_sharp_projector_POWER_STANDBY, |dict_sharp_projector|)
    ensures IndicesWithin(code_sharp_projector_POWER_ON, |dict_sharp_projector|)
    ensures IndicesWithin(code_sharp_projector_VOLUME_UP, |dict_sharp_projector|)
    ensures IndicesWithin(code_sharp_projector_VOLUME_DOWN, |dict_sharp_projector|)
  {
  }

  /** Every record of the seven TV tables can be decoded. */
  lemma TvTablesAuthored()
    ensures AllAuthored(POWER_ON)
    ensures AllAuthored(POWER_OFF)
    ensures AllAuthored(MUTE)
    ensures AllAuthored(VOLUME_UP)
    ensures AllAuthored(VOLUME_DOWN)
    ensures AllAuthored(CHANNEL_UP)
    ensures AllAuthored(CHANNEL_DOWN)
  {
    PowerOnAuthored();
    PowerOffAuthored();
    MuteAuthored();
    VolumeUpAuthored();
    VolumeDownAuthored();
    ChannelUpAuthored();
    ChannelDownAuthored();
  }

  lemma PowerOnAuthored()
    ensures AllAuthored(POWER_ON)
  {
    SamsungCodesWithinDictionary();
    LgeCodesWithinDictionary();
    SonyCodesWithinDictionary();
    PanasonicPowerCodesWithinDictionary();
    PanasonicVolumeCodesWithinDictionary();
    SharpCodesWithinDictionary();
    PhilipsCodesWithinDictionary();
    VizioCodesWithinDictionary();
    PioneerCodesWithinDictionary();
    MitsubishiCodesWithinDictionary();
    FujitsuPowerCodesWithinDictionary();
    FujitsuVolumeCodesWithinDictionary();
    ToshibaCodesWithinDictionary();
    SanyoCodesWithinDictionary();
    JvcCodesWithinDictionary();
    RcaCodesWithinDictionary();
    AuthoredByIndices(POWER_ON[0]);
    AuthoredByIndices(POWER_ON[1]);
    AuthoredByIndices(POWER_ON[2]);
    AuthoredByIndices(POWER_ON[3]);
    AuthoredByIndices(POWER_ON[4]);
    AuthoredByIndices(POWER_ON[5]);
    AuthoredByIndices(POWER_ON[6]);
    AuthoredByIndices(POWER_ON[7]);
    AuthoredByIndices(POWER_ON[8]);
    AuthoredByIndices(POWER_ON[9]);
    AuthoredByIndices(POWER_ON[10]);
    AuthoredByIndices(POWER_ON[11]);
    AuthoredByIndices(POWER_ON[12]);
    AuthoredByIndices(POWER_ON[13]);
  }

  lemma PowerOffAuthored()
    ensures AllAuthored(POWER_OFF)
  {
    SamsungCodesWithinDictionary();
    LgeCodesWithinDictionary();
    SonyCodesWithinDictionary();
    PanasonicPowerCodesWithinDictionary();
    PanasonicVolumeCodesWithinDictionary();
    SharpCodesWithinDictionary();
    PhilipsCodesWithinDictionary();
    VizioCodesWithinDictionary();
    PioneerCodesWithinDictionary();
    MitsubishiCodesWithinDictionary();
    FujitsuPowerCodesWithinDictionary();
    FujitsuVolumeCodesWithinDictionary();
    ToshibaCodesWithinDictionary();
    SanyoCodesWithinDictionary();
    JvcCodesWithinDictionary();
    RcaCodesWithinDictionary();
    AuthoredByIndices(POWER_OFF[0]);
    AuthoredByIndices(POWER_OFF[1]);
    AuthoredByIndices(POWER_OFF[2]);
    AuthoredByIndices(POWER_OFF[3]);
    AuthoredByIndices(POWER_OFF[4]);
    AuthoredByIndices(POWER_OFF[5]);
    AuthoredByIndices(POWER_OFF[6]);
    AuthoredByIndices(POWER_OFF[7]);
    AuthoredByIndices(POWER_OFF[8]);
    AuthoredByIndices(POWER_OFF[9]);
    AuthoredByIndices(POWER_OFF[10]);
    AuthoredByIndices(POWER_OFF[11]);
    AuthoredByIndices(POWER_OFF[12]);
    AuthoredByIndices(POWER_OFF[13]);
  }

  lemma MuteAuthored()
    ensures AllAuthored(MUTE)
  {
    SamsungCodesWithinDictionary();
    LgeCodesWithinDictionary();
    SonyCodesWithinDictionary();
    PanasonicPowerCodesWithinDictionary();
    PanasonicVolumeCodesWithinDictionary();
    SharpCodesWithinDictionary();
    PhilipsCodesWithinDictionary();
    VizioCodesWithinDictionary();
    PioneerCodesWithinDictionary();
    MitsubishiCodesWithinDictionary();
    FujitsuPowerCodesWithinDictionary();
    FujitsuVolumeCodesWithinDictionary();
    ToshibaCodesWithinDictionary();
    SanyoCodesWithinDictionary();
    JvcCodesWithinDictionary();
    RcaCodesWithinDictionary();
    AuthoredByIndices(MUTE[0]);
    AuthoredByIndices(MUTE[1]);
    AuthoredByIndices(MUTE[2]);
    AuthoredByIndices(MUTE[3]);
    AuthoredByIndices(MUTE[4]);
    AuthoredByIndices(MUTE[5]);
    AuthoredByIndices(MUTE[6]);
    AuthoredByIndices(MUTE[7]);
    AuthoredByIndices(MUTE[8]);
    AuthoredByIndices(MUTE[9]);
    AuthoredByIndices(MUTE[10]);
    AuthoredByIndices(MUTE[11]);
    AuthoredByIndices(MUTE[12]);
  }

  lemma VolumeUpAuthored()
    ensures AllAuthored(VOLUME_UP)
  {
    SamsungCodesWithinDictionary();
    LgeCodesWithinDictionary();
    SonyCodesWithinDictionary();
    PanasonicPowerCodesWithinDictionary();
    PanasonicVolumeCodesWithinDictionary();
    SharpCodesWithinDictionary();
    PhilipsCodesWithinDictionary();
    VizioCodesWithinDictionary();
    PioneerCodesWithinDictionary();
    MitsubishiCodesWithinDictionary();
    FujitsuPowerCodesWithinDictionary();
    FujitsuVolumeCodesWithinDictionary();
    ToshibaCodesWithinDictionary();
    SanyoCodesWithinDictionary();
    JvcCodesWithinDictionary();
    RcaCodesWithinDictionary();
    AuthoredByIndices(VOLUME_UP[0]);
    AuthoredByIndices(VOLUME_UP[1]);
    AuthoredByIndices(VOLUME_UP[2]);
    AuthoredByIndices(VOLUME_UP[3]);
    AuthoredByIndices(VOLUME_UP[4]);
    AuthoredByIndices(VOLUME_UP[5]);
    AuthoredByIndices(VOLUME_UP[6]);
    AuthoredByIndices(VOLUME_UP[7]);
    AuthoredByIndices(VOLUME_UP[8]);
    AuthoredByIndices(VOLUME_UP[9]);
    AuthoredByIndices(VOLUME_UP[10]);
    AuthoredByIndices(VOLUME_UP[11]);
    AuthoredByIndices(VOLUME_UP[12]);
    AuthoredByIndices(VOLUME_UP[13]);
  }

  lemma VolumeDownAuthored()
    ensures AllAuthored(VOLUME_DOWN)
  {
    SamsungCodesWithinDictionary();
    LgeCodesWithinDictionary();
    SonyCodesWithinDictionary();
    PanasonicPowerCodesWithinDictionary();
    PanasonicVolumeCodesWithinDictionary();
    SharpCodesWithinDictionary();
    PhilipsCodesWithinDictionary();
    VizioCodesWithinDictionary();
    PioneerCodesWithinDictionary();
    MitsubishiCodesWithinDictionary();
    FujitsuPowerCodesWithinDictionary();
    FujitsuVolumeCodesWithinDictionary();
    ToshibaCodesWithinDictionary();
    SanyoCodesWithinDictionary();
    JvcCodesWithinDictionary();
    RcaCodesWithinDictionary();
    AuthoredByIndices(VOLUME_DOWN[0]);
    AuthoredByIndices(VOLUME_DOWN[1]);
    AuthoredByIndices(VOLUME_DOWN[2]);
    AuthoredByIndices(VOLUME_DOWN[3]);
    AuthoredByIndices(VOLUME_DOWN[4]);
    AuthoredByIndices(VOLUME_DOWN[5]);
    AuthoredByIndices(VOLUME_DOWN[6]);
    AuthoredByIndices(VOLUME_DOWN[7]);
    AuthoredByIndices(VOLUME_DOWN[8]);
    AuthoredByIndices(VOLUME_DOWN[9]);
    AuthoredByIndices(VOLUME_DOWN[10]);
    AuthoredByIndices(VOLUME_DOWN[11]);
    AuthoredByIndices(VOLUME_DOWN[12]);
    AuthoredByIndices(VOLUME_DOWN[13]);
  }

  lemma ChannelUpAuthored()
    ensures AllAuthored(CHANNEL_UP)
  {
    SamsungCodesWithinDictionary();
    LgeCodesWithinDictionary();
    SonyCodesWithinDictionary();
    PanasonicPowerCodesWithinDictionary();
    PanasonicVolumeCodesWithinDictionary();
    SharpCodesWithinDictionary();
    PhilipsCodesWithinDictionary();
    VizioCodesWithinDictionary();
    PioneerCodesWithinDictionary();
    MitsubishiCodesWithinDictionary();
    FujitsuPowerCodesWithinDictionary();
    FujitsuVolumeCodesWithinDictionary();
    ToshibaCodesWithinDictionary();
    SanyoCodesWithinDictionary();
    JvcCodesWithinDictionary();
    RcaCodesWithinDictionary();
    AuthoredByIndices(CHANNEL_UP[0]);
    AuthoredByIndices(CHANNEL_UP[1]);
    AuthoredByIndices(CHANNEL_UP[2]);
    AuthoredByIndices(CHANNEL_UP[3]);
    AuthoredByIndices(CHANNEL_UP[4]);
    AuthoredByIndices(CHANNEL_UP[5]);
    AuthoredByIndices(CHANNEL_UP[6]);
    AuthoredByIndices(CHANNEL_UP[7]);
    AuthoredByIndices(CHANNEL_UP[8]);
    AuthoredByIndices(CHANNEL_UP[9]);
    AuthoredByIndices(CHANNEL_UP[10]);
    AuthoredByIndices(CHANNEL_UP[11]);
    AuthoredByIndices(CHANNEL_UP[12]);
    AuthoredByIndices(CHANNEL_UP[13]);
  }

  lemma ChannelDownAuthored()
    ensures AllAuthored(CHANNEL_DOWN)
  {
    SamsungCodesWithinDictionary();
    LgeCodesWithinDictionary();
    SonyCodesWithinDictionary();
    PanasonicPowerCodesWithinDictionary();
    PanasonicVolumeCodesWithinDictionary();
    SharpCodesWithinDictionary();
    PhilipsCodesWithinDictionary();
    VizioCodesWithinDictionary();
    PioneerCodesWithinDictionary();
    MitsubishiCodesWithinDictionary();
    FujitsuPowerCodesWithinDictionary();
    FujitsuVolumeCodesWithinDictionary();
    ToshibaCodesWithinDictionary();
    SanyoCodesWithinDictionary();
    JvcCodesWithinDictionary();
    RcaCodesWithinDictionary();
    AuthoredByIndices(CHANNEL_DOWN[0]);
    AuthoredByIndices(CHANNEL_DOWN[1]);
    AuthoredByIndices(CHANNEL_DOWN[2]);
    AuthoredByIndices(CHANNEL_DOWN[3]);
    AuthoredByIndices(CHANNEL_DOWN[4]);
    AuthoredByIndices(CHANNEL_DOWN[5]);
    AuthoredByIndices(CHANNEL_DOWN[6]);
    AuthoredByIndices(CHANNEL_DOWN[7]);
    AuthoredByIndices(CHANNEL_DOWN[8]);
    AuthoredByIndices(CHANNEL_DOWN[9]);
    AuthoredByIndices(CHANNEL_DOWN[10]);
    AuthoredByIndices(CHANNEL_DOWN[11]);
    AuthoredByIndices(CHANNEL_DOWN[12]);
    AuthoredByIndices(CHANNEL_DOWN[13]);
  }

  /** Every record of the four projector tables can be decoded. */
  lemma ProjectorTablesAuthored()
    ensures AllAuthored(PROJ_POWER_STANDBY)
    ensures AllAuthored(PROJ_POWER_ON)
    ensures AllAuthored(PROJ_VOLUME_UP)
    ensures AllAuthored(PROJ_VOLUME_DOWN)
  {
    SharpProjectorCodesWithinDictionary();
    AuthoredByIndices(PROJ_POWER_STANDBY[0]);
    AuthoredByIndices(PROJ_POWER_ON[0]);
    AuthoredByIndices(PROJ_VOLUME_UP[0]);
    AuthoredByIndices(PROJ_VOLUME_DOWN[0]);
  }

  /** Odd lengths leave the last `lo` of the storage unused: Sony uses 13 of 14
      nibbles, Philips power-on 13 of 14, and RCA 27 of 28 with the only
      five-entry dictionary. */
  lemma OddLengthRecords()
    ensures POWER_ON[2].codeLength == 13 && |POWER_ON[2].code| == 7
    ensures POWER_ON[5].codeLength == 13 && |POWER_ON[5].code| == 7
    ensures POWER_ON[13].codeLength == 27 && |POWER_ON[13].code| == 14 && |POWER_ON[13].dict| == 5
  {
  }

  /** Every Samsung record of the TV tables carries the one `dict_samsung_tv`. */
  lemma SamsungSharesDictionary()
    ensures POWER_ON[0].dict == POWER_OFF[0].dict == MUTE[0].dict == VOLUME_UP[0].dict
         == VOLUME_DOWN[0].dict == CHANNEL_UP[0].dict == CHANNEL_DOWN[0].dict
         == dict_samsung_tv
  {
  }

  /** Every Lge record of the TV tables carries the one `dict_lge_tv`. */
  lemma LgeSharesDictionary()
    ensures POWER_ON[1].dict == POWER_OFF[1].dict == MUTE[1].dict == VOLUME_UP[1].dict
         == VOLUME_DOWN[1].dict == CHANNEL_UP[1].dict == CHANNEL_DOWN[1].dict
         == dict_lge_tv
  {
  }

  /** Every Sony record of the TV tables carries the one `dict_sony_tv`. */
  lemma SonySharesDictionary()
    ensures POWER_ON[2].dict == POWER_OFF[2].dict == MUTE[2].dict == VOLUME_UP[2].dict
         == VOLUME_DOWN[2].dict == CHANNEL_UP[2].dict == CHANNEL_DOWN[2].dict
         == dict_sony_tv
  {
  }

  /** Every Panasonic record of the TV tables carries the one `dict_panasonic_tv`. */
  lemma PanasonicSharesDictionary()
    ensures POWER_ON[3].dict == POWER_OFF[3].dict == MUTE[3].dict == VOLUME_UP[3].dict
         == VOLUME_DOWN[3].dict == CHANNEL_UP[3].dict == CHANNEL_DOWN[3].dict
         == dict_panasonic_tv
  {
  }

  /** Every Sharp record of the TV tables carries the one `dict_sharp_tv`. */
  lemma SharpSharesDictionary()
    ensures POWER_ON[4].dict == POWER_OFF[4].dict == MUTE[4].dict == VOLUME_UP[4].dict
         == VOLUME_DOWN[4].dict == CHANNEL_UP[4].dict == CHANNEL_DOWN[4].dict
         == dict_sharp_tv
  {
  }

  /** Every Philips record of the TV tables carries the one `dict_philips_tv`. */
  lemma PhilipsSharesDictionary()
    ensures POWER_ON[5].dict == POWER_OFF[5].dict == MUTE[5].dict == VOLUME_UP[5].dict
         == VOLUME_DOWN[5].dict == CHANNEL_UP[5].dict == CHANNEL_DOWN[5].dict
         == dict_philips_tv
  {
  }

  /** Every Vizio record of the TV tables carries the one `dict_vizio_tv`. Vizio has no mute record. */
  lemma VizioSharesDictionary()
    ensures POWER_ON[6].dict == POWER_OFF[6].dict == VOLUME_UP[6].dict == VOLUME_DOWN[6].dict
         == CHANNEL_UP[6].dict == CHANNEL_DOWN[6].dict
         == dict_vizio_tv
  {
  }

  /** Every Pioneer record of the TV tables carries the one `dict_pioneer_tv`. */
  lemma PioneerSharesDictionary()
    ensures POWER_ON[7].dict == POWER_OFF[7].dict == MUTE[6].dict == VOLUME_UP[7].dict
         == VOLUME_DOWN[7].dict == CHANNEL_UP[7].dict == CHANNEL_DOWN[7].dict
         == dict_pioneer_tv
  {
  }

  /** Every Mitsubishi record of the TV tables carries the one `dict_mitsubishi_tv`. */
  lemma MitsubishiSharesDictionary()
    ensures POWER_ON[8].dict == POWER_OFF[8].dict == MUTE[7].dict == VOLUME_UP[8].dict
         == VOLUME_DOWN[8].dict == CHANNEL_UP[8].dict == CHANNEL_DOWN[8].dict
         == dict_mitsubishi_tv
  {
  }

  /** Every Fujitsu record of the TV tables carries the one `dict_fujitsu_tv`. */
  lemma FujitsuSharesDictionary()
    ensures POWER_ON[9].dict == POWER_OFF[9].dict == MUTE[8].dict == VOLUME_UP[9].dict
         == VOLUME_DOWN[9].dict == CHANNEL_UP[9].dict == CHANNEL_DOWN[9].dict
         == dict_fujitsu_tv
  {
  }

  /** Every Toshiba record of the TV tables carries the one `dict_toshiba_tv`. */
  lemma ToshibaSharesDictionary()
    ensures POWER_ON[10].dict == POWER_OFF[10].dict == MUTE[9].dict == VOLUME_UP[10].dict
         == VOLUME_DOWN[10].dict == CHANNEL_UP[10].dict == CHANNEL_DOWN[10].dict
         == dict_toshiba_tv
  {
  }

  /** Every Sanyo record of the TV tables carries the one `dict_sanyo_tv`. */
  lemma SanyoSharesDictionary()
    ensures POWER_ON[11].dict == POWER_OFF[11].dict == MUTE[10].dict == VOLUME_UP[11].dict
         == VOLUME_DOWN[11].dict == CHANNEL_UP[11].dict == CHANNEL_DOWN[11].dict
         == dict_sanyo_tv
  {
  }

  /** Every Jvc record of the TV tables carries the one `dict_jvc_tv`. */
  lemma JvcSharesDictionary()
    ensures POWER_ON[12].dict == POWER_OFF[12].dict == MUTE[11].dict == VOLUME_UP[12].dict
         == VOLUME_DOWN[12].dict == CHANNEL_UP[12].dict == CHANNEL_DOWN[12].dict
         == dict_jvc_tv
  {
  }

  /** Every Rca record of the TV tables carries the one `dict_rca_tv`. */
  lemma RcaSharesDictionary()
    ensures POWER_ON[13].dict == POWER_OFF[13].dict == MUTE[12].dict == VOLUME_UP[13].dict
         == VOLUME_DOWN[13].dict == CHANNEL_UP[13].dict == CHANNEL_DOWN[13].dict
         == dict_rca_tv
  {
  }

  /** All four projector records carry the Sharp projector dictionary. */
  lemma ProjectorSharesDictionary()
    ensures PROJ_POWER_STANDBY[0].dict == PROJ_POWER_ON[0].dict == PROJ_VOLUME_UP[0].dict
         == PROJ_VOLUME_DOWN[0].dict == dict_sharp_projector
  {
  }

  /** Each count is its table's element count: fourteen TV manufacturers, one
      projector, and thirteen for mute, where the slot after Philips holds
      Pioneer because the Vizio record is absent. */
  lemma Totals()
    ensures POWER_ON_TOTAL == POWER_OFF_TOTAL == VOLUME_UP_TOTAL == VOLUME_DOWN_TOTAL
         == CHANNEL_UP_TOTAL == CHANNEL_DOWN_TOTAL == 14
    ensures MUTE_TOTAL == POWER_ON_TOTAL - 1 == 13
    ensures MUTE[5].dict == dict_philips_tv && MUTE[6].dict == dict_pioneer_tv
    ensures PROJ_POWER_STANDBY_TOTAL == PROJ_POWER_OFF_TOTAL == PROJ_VOLUME_UP_TOTAL
         == PROJ_VOLUME_DOWN_TOTAL == 1
  {
  }
}
