/**
 * One playback event of a streaming-history export (the `SongStreaming`
 * record of the `model` package). The record is flat; the four fields that
 * are Go pointers are `Option`s, so that "absent" stays distinct from "false"
 * or the empty string.
 */
module Streaming {
  import opened Wrappers

  /** Go's `int` (64 bits on the targets the tool runs on) and `int64`. */
  newtype int64 = x: int | -0x8000_0000_0000_0000 <= x < 0x8000_0000_0000_0000

  datatype SongStreaming = SongStreaming(
    ts: string,
    username: string,
    platform: string,
    msPlayed: int64,
    connCountry: string,
    ipAddrDecrypted: string,
    userAgentDecrypted: string,
    masterMetadataTrackName: string,
    masterMetadataAlbumArtistName: string,
    masterMetadataAlbumName: string,
    spotifyTrackUri: string,
    episodeName: Option<string>,
    episodeShowName: Option<string>,
    spotifyEpisodeUri: Option<string>,
    reasonStart: string,
    reasonEnd: string,
    shuffle: bool,
    skipped: Option<bool>,
    offline: bool,
    offlineTimestamp: int64,
    incognitoMode: bool
  )
}
