# USB Audio / USB-MIDI decoder model

This project models the core of Wireshark's USB audio class decoder
(`epan/dissectors/packet-usb-audio.c`):

- **Class-specific descriptors.** The USB layer hands over one descriptor of
  an audio interface. The dispatcher picks a body decoder from
  bDescriptorType (CS_INTERFACE or CS_ENDPOINT) and the interface subclass
  (audio control, audio streaming, MIDI streaming), then from
  bDescriptorSubtype. It runs the decoder on the body after the three header
  bytes and flags as undecoded anything the body decoder left short of
  bLength. It returns bLength, or 0 for descriptors it does not handle.
- **Body decoders.** Each one walks the fields of its descriptor and returns
  the number of bytes consumed:
  - the audio control header, input and output terminals, mixer, selector and
    feature units, clock source and clock selector;
  - the audio streaming general, format type (versions 1 and 2) and
    isochronous endpoint descriptors;
  - the MIDI streaming header, MIDI IN and OUT jacks and bulk endpoint
    descriptors.

  A field read past the end of the buffer raises an exception, modelled as
  `Outcome.ReadPastEnd`.
- **Conversation version state.** The audio control and MIDI streaming
  header descriptors attach an audio state to the USB conversation. The state
  records the major version decoded from bcdADC or bcdMSC, a 4.4 BCD byte. The
  terminal, AS general, format type and AS endpoint decoders size their fields
  by that version. They decode nothing when there is no state or the version
  is neither 1 nor 2.
- **USB-MIDI event packets.** A bulk payload on a MIDI streaming interface is
  a run of 4-byte event packets: the cable number, the code index number and
  up to three MIDI bytes. System exclusive (SysEx) messages span packets with
  code 0x4, closed by code 0x5, 0x6 or 0x7. They are reassembled per
  (source, destination, cable) group. A message is handed on only when the
  lookahead finds no later packet of the same buffer carrying a SysEx code.

Each imperative decoder is a `method` proved equal to a closed-form
specification function:

- `Span`, `CountedBody` and `VersionedSpan` for bodies of fixed fields;
- `AcHeaderSpec`, `FeatureUnitSpec`, `FormatTypeSpec` and `MsHeaderSpec`;
- `DescriptorSpec` for the dispatcher;
- `EventStep` and `ProcessFrom` for the MIDI packet loop.

The lemmas state what the decoder promises about those functions.

One SysEx case behaves differently from what the per-cable reassembly
suggests. Take the four packets 0x4 "abc", 0x4 "def", 0x6 "gh", 0x5 "i" on
cable 0 in one buffer. One might expect "abcdefgh" to be handed on. In the
code, the lookahead at the 0x6 packet sees the 0x5 packet after it, so the
closed group "abcdefgh" is never handed on. The 0x5 packet then opens and
closes a group of its own. In the model that group hands on only "i"; what the
reassembly library hands on for such a single-packet group is not modelled
(see "## Left out"). The model follows the code in dropping "abcdefgh"
(`MidiEvents.ClosedGroupWithLaterSysexIsDropped`).

## Model

| member | source | states |
|---|---|---|
| UsbAudioTypes.BcdRoundTrip | epan/dissectors/packet-usb-audio.c:22 | The 4.4 BCD decoding inverts the two-digit encoding of 0..99. On valid BCD bytes it yields a value below 100 that encodes back to the same byte. |
| UsbAudioTypes.Bcd44ToDec | epan/dissectors/packet-usb-audio.c:22 | The decoded value is at most 165. When the low nibble is a decimal digit, the tens digit of the result is the high nibble and the units digit the low nibble. |
| Conversation.AllocateAudioConvInfo | epan/dissectors/packet-usb-audio.c:831-838 | A fresh audio state with both major versions 0, so the version-gated decoders see version 0. |
| Conversation.GatedVersion | epan/dissectors/packet-usb-audio.c:983-988 | There is no version exactly when no class data exists. On audio data it is the recorded audio major version. On data of another class it is that data's first byte, since the class data is cast without checking its class. |
| UsbAudioTypes.TruncDiv | epan/dissectors/packet-usb-audio.c:1127 | C integer division by a positive divisor rounds toward zero. For a non-negative dividend a the quotient times the divisor b lies in (a-b, a]; for a negative one it lies in [a, a+b) and is at most 0. |
| Conversation.UsbConvInfo.constructor | epan/dissectors/packet-usb-audio.c:1819-1826 | A conversation record, as the USB layer hands it over, carries the interface class and subclass the dispatcher tests, and starts with no class data attached. |
| AudioControl.DissectAcHeader | epan/dissectors/packet-usb-audio.c:844-912 | The outcome and new class data equal AcHeaderSpec. Foreign class data is left alone and nothing is decoded. Otherwise the state is created if missing and records the BCD-decoded bcdADC major version, keeping the MIDI version. Under version 1 it consumes 5+bInCollection bytes and returns the interface numbers read. |
| AudioControl.DissectInputTerminal | epan/dissectors/packet-usb-audio.c:915-1030 | Consumes 9 bytes under version 1 and 14 under version 2. Decodes nothing without a state or for another version. Fails exactly when those bytes overrun the buffer. |
| AudioControl.DissectOutputTerminal | epan/dissectors/packet-usb-audio.c:1033-1084 | As the input terminal, with 6 and 9 bytes. |
| AudioControl.DissectMixerUnit | epan/dissectors/packet-usb-audio.c:1187-1241 | Consumes 8+bNrInPins bytes. The source IDs returned are exactly the bNrInPins bytes after bNrInPins. |
| AudioControl.DissectSelectorUnit | epan/dissectors/packet-usb-audio.c:1155-1184 | Consumes 3+bNrInPins bytes and returns exactly the source IDs. |
| AudioControl.FeatureUnitLengthRule | epan/dissectors/packet-usb-audio.c:1126-1132 | The validity test on bLength and bControlSize holds exactly when bLength is 7+(c+1)*n for some channel count c and n at least 1. The channel count derived by truncating division is then that c. |
| AudioControl.DissectFeatureUnit | epan/dissectors/packet-usb-audio.c:1087-1153 | The outcome equals FeatureUnitSpec. An invalid length gives the malformed-length diagnostic and a skip to bLength. Otherwise ch+1 control entries of bControlSize bytes are returned; their concatenation is exactly the bytes between bControlSize and iFeature. |
| AudioControl.ReadControls | epan/dissectors/packet-usb-audio.c:1135-1147 | Succeeds exactly when count*size bytes remain. It then returns count entries of size bytes whose concatenation is those bytes, in order. |
| AudioControl.DissectClockSource | epan/dissectors/packet-usb-audio.c:1244-1278 | Consumes the five fixed bytes, failing exactly when they overrun the buffer. |
| AudioControl.DissectClockSelector | epan/dissectors/packet-usb-audio.c:1281-1313 | Consumes 4+bNrInPins bytes and returns exactly the source IDs. |
| AudioStreaming.DissectAsGeneral | epan/dissectors/packet-usb-audio.c:1316-1486 | Consumes 4 bytes under version 1 and 13 under version 2, otherwise nothing. |
| AudioStreaming.DissectSamFreqs | epan/dissectors/packet-usb-audio.c:1519-1535 | Succeeds exactly when the count byte and its 3*(2 if 0 else count) rate bytes are present. Returns two rates (bounds of a range) for 0, else count discrete rates, each the 24-bit little-endian value at its place. |
| AudioStreaming.CheckType3Fields | epan/dissectors/packet-usb-audio.c:1558-1580 | Raises no diagnostic exactly when bNrChannels is 2, bSubframeSize is 2 and bBitResolution is 16. Each field's diagnostic, at that field's offset, is raised exactly when that field deviates. |
| AudioStreaming.DissectFormatTypeV1 | epan/dissectors/packet-usb-audio.c:1489-1603 | The outcome equals FormatTypeV1Spec: types I and III take 5 bytes plus the rate list, type II takes 6 plus the rate list, and any other type only bFormatType. Type III deviations are flagged but still decoded. The rates returned are the ones in the descriptor. |
| AudioStreaming.DissectFormatTypeV2 | epan/dissectors/packet-usb-audio.c:1606-1627 | Type I consumes 3 bytes, any other type only bFormatType. |
| AudioStreaming.DissectFormatType | epan/dissectors/packet-usb-audio.c:1630-1647 | Chooses the version 1 or 2 decoder by the conversation's audio version, otherwise decodes nothing. |
| AudioStreaming.DissectAsEndpointGeneral | epan/dissectors/packet-usb-audio.c:1650-1700 | Consumes 4 bytes under version 1 and 5 under version 2, otherwise nothing. |
| MidiStreaming.DissectMsHeader | epan/dissectors/packet-usb-audio.c:1703-1737 | The outcome and new class data equal MsHeaderSpec. Foreign class data is left alone. Otherwise the state is created if missing and records the bcdMSC major version, keeping the audio version. Consumes 4 bytes. |
| MidiStreaming.DissectMidiInJack | epan/dissectors/packet-usb-audio.c:1740-1753 | Consumes the three fixed bytes. |
| MidiStreaming.DissectMidiOutJack | epan/dissectors/packet-usb-audio.c:1756-1783 | Consumes 4+2*bNrInputPins bytes. Returns exactly the (source ID, source pin) pairs in order. |
| MidiStreaming.DissectMsEndpointGeneral | epan/dissectors/packet-usb-audio.c:1786-1803 | Consumes 1+bNumEmbMIDIJack bytes and returns exactly the associated jack IDs. |
| Descriptor.Classify | epan/dissectors/packet-usb-audio.c:1826-2001 | A kind is chosen exactly for the five (descriptor type, subclass) pairs the dispatcher handles, and it is the kind registered under that pair. |
| Descriptor.DissectDescriptorBody | epan/dissectors/packet-usb-audio.c:1826-1999 | Running the body decoder chosen by kind and subtype equals BodySpec, including the class data it leaves. Unknown subtypes decode nothing. |
| Descriptor.DissectUsbAudioDescriptor | epan/dissectors/packet-usb-audio.c:1806-2007 | Without a conversation record it returns 0. Otherwise the outcome and new class data equal DescriptorSpec and the interface class and subclass are unchanged. |
| Descriptor.DescriptorReportsBLength | epan/dissectors/packet-usb-audio.c:1819-2006 | A handled descriptor reports bLength whatever its body consumed. Every other descriptor reports 0. A read past the end happens only on an audio interface. |
| Descriptor.BodyRaisesNoUndecoded | epan/dissectors/packet-usb-audio.c:843-1803 | No body decoder raises the undecoded diagnostic. |
| Descriptor.UndecodedCoversTail | epan/dissectors/packet-usb-audio.c:2003-2005 | The undecoded diagnostic appears exactly when the body stopped short of bLength. It then runs from where the body stopped to bLength. |
| Descriptor.OnlyHeadersChangeState | epan/dissectors/packet-usb-audio.c:1826-1999 | Only AC and MS header descriptors change the class data, and foreign class data never changes. |
| Descriptor.HeaderRecordsVersion | epan/dissectors/packet-usb-audio.c:844-912 | An AC header records the BCD-decoded bcdADC major version and keeps the MIDI version. An MS header records bcdMSC's and keeps the audio version. A missing state is created zeroed first. |
| Descriptor.FeatureUnitFillsDescriptor | epan/dissectors/packet-usb-audio.c:1126-1153 | A feature unit always accounts for bLength: no diagnostic for a valid length, else exactly the malformed-length diagnostic from bControlSize's end to bLength. |
| Descriptor.TerminalFollowsHeaderVersion | epan/dissectors/packet-usb-audio.c:915-1030 | After an AC header, an input terminal is sized by the version the header recorded: 9 body bytes under version 1, 14 under version 2. |
| Descriptor.VersionGatedBeforeHeader | epan/dissectors/packet-usb-audio.c:915-1084 | Before any header, the version-gated descriptors decode nothing and are reported as undecoded past their three header bytes. |
| MidiEvents.MidiEventSize | epan/dissectors/packet-usb-audio.c:675-704 | At most 3 bytes, and 0 exactly for codes outside 0..15. Codes 0x5 and 0xF carry one byte; 0x2, 0x6, 0xC and 0xD carry two; every other code in 0..15, the reserved 0x0 and 0x1 included, carries three. |
| MidiEvents.IsSysexCode | epan/dissectors/packet-usb-audio.c:706-710 | Holds exactly for code index numbers 0x4 to 0x7, each of which carries at least one event byte. |
| MidiEvents.SysexChunkLength | epan/dissectors/packet-usb-audio.c:786-805 | A SysEx packet adds 1 to 3 bytes to its group, exactly its event size. |
| MidiEvents.SplitEventPacket | epan/dissectors/packet-usb-audio.c:745-771 | Cable and code recombine into the first byte. The event is MidiEventSize bytes, and event plus padding are the packet's other three bytes. |
| MidiEvents.NoSysexFromMeaning | epan/dissectors/packet-usb-audio.c:713-734 | The lookahead holds exactly when no packet start from the given position to the end of the buffer carries a SysEx code. |
| MidiEvents.IsLastSysexPacketInTvb | epan/dissectors/packet-usb-audio.c:713-734 | The scan answers true exactly when no later packet of the buffer, on any cable, carries a SysEx code. |
| MidiEvents.DissectUsbMidiEvent | epan/dissectors/packet-usb-audio.c:737-829 | Returns the split packet. The pending groups, the message handed on and the info text added equal EventStep. The fragmented flag and the addresses are restored. |
| MidiEvents.DissectEventPackets | epan/dissectors/packet-usb-audio.c:2030-2038 | Decoding every whole packet in order equals ProcessFrom from packet 0. |
| MidiEvents.DissectUsbAudioBulk | epan/dissectors/packet-usb-audio.c:2012-2044 | Without a conversation it returns 0 and changes nothing. On a MIDI streaming interface it sets the protocol and info text and runs ProcessFrom over the payload. Otherwise it flags the whole payload undecoded. It returns the payload length. |
| MidiEvents.SysexChunkIsEvent | epan/dissectors/packet-usb-audio.c:786-805 | The bytes a SysEx packet adds to its group are exactly its event bytes. |
| MidiEvents.EventStepOwnGroup | epan/dissectors/packet-usb-audio.c:775-826 | A 0x4 packet appends its three bytes to its group and hands nothing on. A terminator closes the group. It hands on all the group's bytes plus its own, in order, exactly when no later SysEx packet follows. Info text is added exactly then. |
| MidiEvents.EventStepOtherGroups | epan/dissectors/packet-usb-audio.c:786-805 | A packet leaves the groups of every other (source, destination, cable) key untouched. |
| MidiEvents.NonSysexPacketsInert | epan/dissectors/packet-usb-audio.c:2030-2038 | Packets without SysEx codes change neither the groups, the messages handed on nor the info text. |
| MidiEvents.SysexPacketsDelivered | epan/dissectors/packet-usb-audio.c:775-826 | A SysEx message's packets ending a buffer hand on the cable's pending bytes followed by the whole message, once. They close the group and add one "reassembled" note. |
| MidiEvents.SysexRoundTrip | epan/dissectors/packet-usb-audio.c:737-829 | A message sent on any cable, decoded as one payload from an empty table, is handed on exactly once and unchanged, and nothing stays pending. For a message longer than three bytes this is what the code does. For one of at most three bytes (a single packet) it holds for the model's reassembly, not necessarily for the library's. |
| MidiEvents.ClosedGroupWithLaterSysexIsDropped | epan/dissectors/packet-usb-audio.c:807-825 | For packets 0x4, 0x4, 0x6, 0x5 the group closed by 0x6 is never handed on and nothing stays pending. In the model only the last packet's byte is handed on. |
| MidiEvents.LookaheadSpansCables | epan/dissectors/packet-usb-audio.c:807-825 | A terminator on cable 0 followed by one on cable 1: cable 0's bytes are never handed on. In the model cable 1's single-packet group is handed on as its own byte. |
| MidiEvents.PartialTrailingPacketBlocksDelivery | epan/dissectors/packet-usb-audio.c:713-734 | A trailing partial packet is not decoded, but its SysEx code still blocks delivery of the preceding terminator. |

## Left out

- Protocol tree rendering is left out: items, subtrees, value strings and field encodings. The versions are integers; the floating-point "x.y" version text is not modelled.
- MidiEvents.AddSeqNext: a group whose first fragment is also its last yields exactly that fragment's bytes in the model. The reassembly library, which is not part of this model, treats such an unfragmented message specially (no fragment list), and what it then passes to the SysEx decoder (the rest of the buffer from the event bytes on) is not modelled.
- MidiEvents.SysexRoundTrip: for a message of at most three bytes (one packet) it states what the model hands on, not what the reassembly library does; for longer messages the library path is the modelled one.
- MidiEvents.ClosedGroupWithLaterSysexIsDropped and MidiEvents.LookaheadSpansCables: the single-packet group each ends with is handed on as its own bytes only in the model, for the same reason.
- Reassembly-library internals are left out. `fragment_add_seq_next` is abstracted as `AddSeqNext`: append to the group, and a last fragment closes it and yields every chunk. Second-pass and visited-frame lookups and the reassembled-in frame number are not modelled. Addresses are abstracted to integer source and destination.
- Handing a reassembled message to the SysEx decoder is modelled as a delivered byte sequence. What that decoder does, and how it sees the fragmented flag, is not modelled.
- Diagnostics raised before an exception are lost in the model: the outcome `ReadPastEnd` carries no diagnostics.
- Decoding without a protocol tree is not distinguished. The model treats every field as a checked read, as tree item creation with length checks does.
- Subtree lengths, negative expert lengths and the reported versus captured buffer length are not modelled. The buffer is its captured bytes.
- Registration and handoff to the USB layer, and the interface-class lookups that choose this decoder, are left out. The conversation record is a parameter.
- DissectUsbMidiEvent: the event/padding split is always computed. The decoder only shows it when a tree is present, which has no effect on state.
