# pico_dazzler core in Dafny

A model of the core of pico_dazzler. That firmware makes a Raspberry Pi Pico
behave as a Cromemco Dazzler graphics card for an Altair-Duino. The host sends
packets over USB serial. Each packet header's high nibble names a command:

- CTRL and CTRLPIC set the control and picture-control registers.
- MEMBYTE and FULLFRAME write video memory.
- DAC queues an audio sample.
- VERSION asks for the feature bits.

The firmware keeps two raw 2048-byte copies of the host's video memory. It
decodes them into three 128x128 framebuffers: two for double buffering, and a
third left blank and shown while the Dazzler is off. A timer callback plays
queued DAC samples on a stereo I2S output. A USB host stack reports joysticks
and a keyboard. Their input is sent back to the Altair as three-byte joystick
messages and two-byte key messages.

The model has nine modules, one file each:

- `Bytes` (bytes.dfy): the byte type, bit tests and `Option`.
- `UsbRing` (usb_ring.dfy): the receive ring buffer as a class over a
  4096-byte array. A ghost sequence of unread bytes specifies it.
- `Vram` (vram.dfy): the four video modes as pure functions.
  - The forward map from an address to the cell that set_vram draws.
  - The inverse map from a pixel to the address and bit that colour it.
  - Lemmas that the two maps agree, and that the pixel-setter calls of each
    mode draw exactly the cell.
- `Protocol` (protocol.dfy): one packet of the dispatcher as a pure function,
  `PacketStep`. Lemmas cover CTRL/CTRLPIC pairing, MEMBYTE, FULLFRAME, DAC,
  VERSION and the ignored commands.
- `Audio` (audio.dfy): one DAC channel as a value (`Channel`, `ChannelTick`,
  `Offer`), plus lemmas about runs of ticks. The `AudioEngine` class holds the
  statics of daz_audio.c and is proved to follow `ChannelTick` on both channels.
- `Dazzler` (dazzler.dfy): the emulator state as a class.
  - It holds the framebuffers (`array3`), raw memory (`array2`), the
    registers, the ring, the audio engine and the reply stream.
  - It has the pixel setters, set_vram, refresh_vram, daz_ctrl, daz_ctrlpic
    and one pass of the packet switch.
  - Every packet method is proved to do what `Protocol.PacketStep` says.
- `HidParser` (hid_parser.dfy): parse_report_descriptor.
  - The descriptor walk is a recursive function with the proved effect of each
    item.
  - The C loop is a method proved equal to that function.
- `Keyboard` (keyboard.dfy): the keycode table, the modifier column,
  new-key detection and the keyboard mount record.
- `Joystick` (joystick.dfy): the axis and header encoding, the two joystick
  slots with mount and unmount, and the change-only joystick messages.

Time, the USB stack and the I2S hardware are inputs:

- The audio tick takes the current time in microseconds as a parameter.
- Bytes sent to the host are appended to a `sent` sequence.
- Bytes pushed to the I2S state machine are appended to an `output` sequence.
- A blocking read that would wait for more USB input ends the packet and
  reports it as blocked.

## Model

| member | source | states |
|---|---|---|
| UsbRing.Ring.Count | main.c:210-218 | the number of unread bytes is below 4096 and is 0 exactly when the read and write positions meet |
| UsbRing.Ring.Avail | main.c:216-219 | a byte is waiting exactly when the unread sequence is non-empty |
| UsbRing.Ring.GetByte | main.c:222-235 | returns and removes the oldest unread byte; with none waiting returns 0 and changes nothing |
| UsbRing.Ring.PeekByte | main.c:237-250 | the oldest unread byte without consuming it, 0 when none is waiting |
| UsbRing.Ring.GetByteBlocking | main.c:253-257 | the oldest byte and its removal; with the ring empty, no byte and no change |
| UsbRing.Ring.SetByte | main.c:260-270 | below 4095 unread bytes the byte is appended; at 4095 the write position catches the read position and every unread byte is lost |
| UsbRing.Ring.constructor | main.c:211-213 | an empty ring |
| Vram.PictureCtrlRoundTrip | main.c:98-117 | decoding a picture-control byte built from a mode, colour table and foreground gives back all three |
| Vram.QuadrantAddr | main.c:529-567 | a quadrant row/column address lies within the 2048 bytes of raw memory |
| Vram.SourceAddr | main.c:529-620 | the address colouring a pixel is in raw memory, and below 512 in the two 512-byte modes |
| Vram.Mono64Origin | main.c:569-584 | the 64x64 monochrome cell of an address is at column 4*(a%16), row 2*(a/16) |
| Vram.Colour32Origin | main.c:613-620 | the 32x32 colour cell of an address is at column 2*(a%16), row a/16 |
| Vram.Mono128Origin | main.c:529-567 | the 128x128 monochrome cell lies in quadrant a/512 at the flat position of a%512 |
| Vram.Colour64Origin | main.c:586-611 | the 64x64 colour cell lies in quadrant a/512 at the flat position of a%512 |
| Vram.CellIsSource | main.c:509-620 | in every mode, a pixel lies in the cell set_vram draws for an address exactly when that address is the pixel's source |
| Vram.Mono128Cell | main.c:529-567 | the same in 128x128 monochrome |
| Vram.Mono64Cell | main.c:569-584 | the same in 64x64 monochrome |
| Vram.Colour64Cell | main.c:586-611 | the same in 64x64 colour |
| Vram.Colour32Cell | main.c:613-620 | the same in 32x32 colour |
| Vram.QuadrantModesShareAddress | main.c:529-611 | the two 2048-byte modes map every pixel to the same address |
| Vram.SlotInCell | main.c:529-620 | the pixel drawn at an offset of a cell shows the bit (monochrome) or nibble (colour) set_vram passes for that offset |
| Vram.BlockInCell | main.c:444-502 | a block a pixel setter draws for an offset of a cell has the cell's address and that offset's bit or nibble |
| Vram.CellOffsetOf | main.c:509-620 | every pixel of a cell lies in the block drawn for one offset of it |
| Vram.MonoBlocksCover | main.c:529-584 | every pixel whose source is an address lies in one of the eight blocks of its monochrome cell |
| Vram.ColourBlocksCover | main.c:586-620 | every pixel whose source is an address lies in one of the two blocks of its colour cell |
| Vram.Mono128Blocks | main.c:529-567 | the eight set_pixel_128 calls for an address draw exactly the pixels whose source it is, each with its bit D0..D7 |
| Vram.Mono64Blocks | main.c:569-584 | the eight set_pixel_64 calls draw exactly the pixels whose source is the address, each with its bit |
| Vram.Colour64Blocks | main.c:586-611 | the two set_pixel_64 calls draw exactly the address's pixels, low nibble on the left |
| Vram.Colour32Blocks | main.c:613-620 | the two set_pixel_32 calls draw exactly the address's pixels, low nibble on the left |
| Protocol.Command | main.c:752 | the command is a multiple of 16, and command plus low nibble gives back the header |
| Protocol.Peek | main.c:237-250 | the first waiting byte, 0 when none waits; a non-zero command implies a byte was waiting |
| Protocol.DisplayBuffer | main.c:365-377 | the scan-out shows the active buffer while bit 7 of the control register is set, else the blank buffer 2 |
| Protocol.DazCtrl | main.c:649-676 | reads a payload byte exactly when the low nibble is 0, and is blocked exactly when that byte is missing; only the control register changes; a header with a non-zero nibble keeps the registers and returns the active buffer |
| Protocol.DazCtrlPic | main.c:678-709 | reads a payload byte exactly when the low nibble is 0; the control register and active buffer never change |
| Protocol.CtrlSelectsBuffer | main.c:649-676 | the buffer becomes bit 0 of the new control byte exactly when that byte differs from the old one and has bit 7 set; otherwise it stays the active buffer |
| Protocol.CtrlPicChangesMode | main.c:678-709 | a change is reported exactly when the payload differs from the old picture control; then mode, colour table and foreground follow the payload; otherwise nothing changes |
| Protocol.CtrlFollowUp | main.c:765-783 | after daz_ctrl the selected buffer becomes active; the redraw, if any, is of that buffer; a blocked partner consumes all input |
| Protocol.CtrlPacket | main.c:765-783 | a CTRL packet consumes at least its header, keeps the active buffer in {0,1}, never replies or queues audio, and redraws at most the new active buffer |
| Protocol.CtrlPicFollowUp | main.c:784-799 | after daz_ctrlpic the picture registers are kept; an unblocked follow-up redraws the final active buffer exactly when the picture control changed |
| Protocol.CtrlPicPacket | main.c:784-799 | a CTRLPIC packet keeps the active buffer in {0,1}, never replies or queues audio, and redraws at most the new active buffer |
| Protocol.MemBytePacket | main.c:800-808 | MEMBYTE changes no register and stores at most one byte inside raw memory of buffer 0 or 1 |
| Protocol.FullFramePacket | main.c:809-825 | FULLFRAME changes no register and stores inside raw memory of buffer 0 or 1 |
| Protocol.DacPacket | main.c:826-834 | DAC changes no register or video memory and consumes four bytes when complete |
| Protocol.DacOf | main.c:828-830 | channel 0 for a zero low nibble, else 1; the delay's low byte is the first operand byte and its high byte the second; the sample is the third |
| Protocol.PacketStep | main.c:750-835 | one packet consumes 1 to all input bytes; only VERSION replies, only DAC queues audio, only MEMBYTE/FULLFRAME store and only CTRL/CTRLPIC change registers; stores stay inside raw memory; a redraw is of the active buffer |
| Protocol.LoneCtrlAlwaysRefreshes | main.c:765-783 | a CTRL not followed by CTRLPIC always redraws the selected buffer, even when the control byte is unchanged |
| Protocol.CtrlThenCtrlPic | main.c:765-783 | CTRL followed by CTRLPIC sets both registers, consumes four bytes, and redraws the selected buffer once under the new mode, exactly when the picture control changed |
| Protocol.CtrlPicThenCtrl | main.c:784-799 | CTRLPIC followed by CTRL sets both registers and redraws the buffer CTRL selects once, exactly when the picture control changed |
| Protocol.LoneCtrlPic | main.c:784-799 | a CTRLPIC without a CTRL partner redraws the active buffer exactly when the picture control changed, and never switches buffers |
| Protocol.CtrlSwitchesDisplay | main.c:649-676 | after a complete CTRL the display shows bit 0 of a new control byte with bit 7 set, and the blank buffer when bit 7 is clear |
| Protocol.MemByteStores | main.c:800-808 | MEMBYTE stores its value at (header & 7) * 256 + low byte, below 2048, in the buffer picked by bit 3, and changes nothing else |
| Protocol.FullFrameStores | main.c:809-825 | FULLFRAME with bits 2 and 1 clear stores 2048 (bit 0) or 512 bytes from address 0 of the buffer picked by bit 3; otherwise it consumes only its header |
| Protocol.VersionReplies | main.c:754-764 | VERSION replies with 0xF2 0x3F 0x00 and changes nothing; no other packet replies |
| Protocol.UnknownIgnored | main.c:752-835 | headers with command 0x00 or 0x60 to 0xE0 are consumed and ignored |
| Protocol.DacQueues | main.c:826-834 | DAC hands the channel, the little-endian delay and the sample to the audio engine and changes nothing else |
| Dazzler.Dazzler.constructor | main.c:97-203 | registers as initialised (mode 64x64 monochrome, greys, buffer 0), all framebuffers black, raw memory zero, ring empty, audio idle |
| Dazzler.Dazzler.SetPixel128 | main.c:444-451 | sets exactly pixel (x, y) of the chosen buffer to the current table's entry colour & 15, dropped off screen |
| Dazzler.Dazzler.SetPixel64 | main.c:453-470 | sets exactly the 2x2 block at (2x, 2y), dropped unless its corner is on screen |
| Dazzler.Dazzler.SetPixel32 | main.c:472-502 | sets exactly the 4x4 block at (4x, 4y), dropped unless its corner is on screen |
| Dazzler.Dazzler.DrawMono128 | main.c:529-567 | every pixel whose source is the address shows the byte decoded in 128x128 monochrome; no other pixel changes |
| Dazzler.Dazzler.DrawMono64 | main.c:569-584 | the same for 64x64 monochrome |
| Dazzler.Dazzler.DrawColour64 | main.c:586-611 | the same for 64x64 colour |
| Dazzler.Dazzler.DrawColour32 | main.c:613-620 | the same for 32x32 colour |
| Dazzler.Dazzler.SetVram | main.c:509-623 | stores the byte in raw memory unless refreshing; every pixel whose source is the address shows it decoded in the current mode; nothing else changes |
| Dazzler.Dazzler.RefreshVram | main.c:626-634 | afterwards the buffer shows its raw memory decoded in the current mode at every pixel; raw memory and the other framebuffers are unchanged |
| Dazzler.Dazzler.UpdateCtrl | main.c:649-676 | registers, selected buffer and ring position become what Protocol.DazCtrl says |
| Dazzler.Dazzler.UpdateCtrlPic | main.c:678-709 | registers, change flag and ring position become what Protocol.DazCtrlPic says |
| Dazzler.Dazzler.CtrlFollowUpCommand | main.c:768-782 | the CTRL case after daz_ctrl does what Protocol.CtrlFollowUp says |
| Dazzler.Dazzler.CtrlPicPartner | main.c:768-781 | a CTRLPIC header after CTRL is consumed with its payload, buffer fb is redrawn only if the picture control changed, and fb becomes active; a missing payload leaves the registers alone and reports blocked |
| Dazzler.Dazzler.RefreshIfChanged | main.c:793-796 | buffer b is redrawn under the current registers when the picture control changed, and video memory is untouched otherwise |
| Dazzler.Dazzler.CtrlPicFollowUpCommand | main.c:788-798 | the CTRLPIC case after daz_ctrlpic does what Protocol.CtrlPicFollowUp says |
| Dazzler.Dazzler.StoreFrame | main.c:814-823 | the FULLFRAME loop stores the next count ring bytes (or all of them, reporting blocked) from address 0 and draws each |
| Dazzler.Dazzler.ReadThree | main.c:829-830 | three blocking reads give the next three bytes in order, or nothing when fewer wait |
| Dazzler.Dazzler.CtrlPartner | main.c:788-797 | a CTRL header after CTRLPIC is consumed with its payload, the buffer daz_ctrl selects becomes active and is redrawn only if the picture control had changed; a missing payload reports blocked |
| Dazzler.Dazzler.QueueSample | main.c:831 | the DAC sample joins its channel's queue as Audio.Offer says, and the other channel is untouched |
| Dazzler.Dazzler.VideoPacket | main.c:765-825 | the CTRL, CTRLPIC, MEMBYTE and FULLFRAME cases each change the state exactly as Protocol.PacketStep says |
| Dazzler.Dazzler.OtherPacket | main.c:750-835 | VERSION, DAC and headers without a case change the state exactly as Protocol.PacketStep says, leaving video memory alone |
| Dazzler.Dazzler.ProcessPacket | main.c:750-835 | one pass of the switch changes registers, raw memory, framebuffers, replies, audio queues and ring exactly as Protocol.PacketStep says |
| Dazzler.Dazzler.VersionCommand | main.c:754-764 | the VERSION case as Protocol.PacketStep says |
| Dazzler.Dazzler.IgnoreCommand | main.c:752-835 | a header without a case as Protocol.PacketStep says |
| Dazzler.Dazzler.CtrlCommand | main.c:765-783 | the CTRL case as Protocol.CtrlPacket says |
| Dazzler.Dazzler.CtrlPicCommand | main.c:784-799 | the CTRLPIC case as Protocol.CtrlPicPacket says |
| Dazzler.Dazzler.MemByteCommand | main.c:800-808 | the MEMBYTE case as Protocol.MemBytePacket says |
| Dazzler.Dazzler.FullFrameCommand | main.c:809-825 | the FULLFRAME case as Protocol.FullFramePacket says |
| Dazzler.Dazzler.DacCommand | main.c:826-834 | the DAC case as Protocol.DacPacket says, queueing the sample through audio_add_sample |
| Audio.Pack | daz_audio.c:213 | the packed word's top half is the delay and its bottom half is the sample shifted up 8, so its low byte is clear |
| Audio.Word | daz_audio.c:201 | the output word's bits 0-15 are the left half and bits 16-31 the right half |
| Audio.Offer | daz_audio.c:214-225 | a queue below 512 words gets the word appended; a full queue drops it; nothing else changes |
| Audio.TickKeepsClean | daz_audio.c:139-199 | a tick keeps the low byte of every held and queued PCM value clear and never grows the queue |
| Audio.TickKeepsSettled | daz_audio.c:160-171 | a channel whose delay is unknown only after its deadline never takes the 5000 us settle branch, and still has that property after a later tick |
| Audio.HoldsUntilDeadline | daz_audio.c:139-171 | before its deadline, a channel with a known delay is left exactly as it is |
| Audio.CommitAtDeadline | daz_audio.c:139-152 | at the deadline with a word queued, the pending sample goes to the output, the word's sample becomes pending and the deadline moves to now plus the word's delay |
| Audio.DrainAtDeadline | daz_audio.c:153-158 | at the deadline with the queue empty, the channel's half is zeroed and its delay forgotten |
| Audio.SettleUnreachable | daz_audio.c:139-171 | with time never going back, a settled channel never takes the settle branch in any run of ticks and additions |
| Audio.SettleNeverFromPowerOn | daz_audio.c:59-62 | from the all-zero statics, the settle branch is never taken |
| Audio.HoldsThroughRun | daz_audio.c:139-171 | a committed sample stays on the output, with pending sample and deadline unchanged, through every run of ticks before its deadline |
| Audio.CommitLeftWord | daz_audio.c:142 | the left commit with the 36-bit mask replaces the left half and keeps the right half, given the right half's low byte is clear |
| Audio.OddMaskWithoutInvariant | daz_audio.c:142 | without that invariant the 36-bit mask would clear a right half of 1 |
| Audio.CommitRightWord | daz_audio.c:175 | the right commit replaces the right half and keeps the left |
| Audio.ClearHalves | daz_audio.c:155-188 | zeroing one half keeps the other |
| Audio.WordOfHalves | daz_audio.c:201 | an output word is rebuilt from its two halves |
| Audio.AudioEngine.Left | daz_audio.c:59-66 | channel 0 seen as a value: its queue and bits 0-15 of the output word |
| Audio.AudioEngine.Right | daz_audio.c:59-66 | channel 1 seen as a value: its queue and bits 16-31 of the output word |
| Audio.AudioEngine.constructor | daz_audio.c:59-66 | every static zero, both queues empty, nothing output |
| Audio.AudioEngine.AddSample | daz_audio.c:208-228 | channel 0 offers the packed word to the left queue, any other channel to the right queue; the other channel and the output are unchanged |
| Audio.AudioEngine.TickLeft | daz_audio.c:138-171 | the left channel advances as ChannelTick says, the right is unchanged |
| Audio.AudioEngine.CommitLeft | daz_audio.c:139-158 | at the left deadline the left channel becomes ChannelTick of its old state: the next word is taken, or the channel times out with its half zeroed; the right channel is untouched |
| Audio.AudioEngine.SettleLeft | daz_audio.c:160-171 | a timed-out left channel with a queued word holds it for SETTLE_US as ChannelTick says; the right channel is untouched |
| Audio.AudioEngine.TickRight | daz_audio.c:172-199 | the right channel advances as ChannelTick says, the left is unchanged |
| Audio.AudioEngine.CommitRight | daz_audio.c:173-188 | at the right deadline the right channel becomes ChannelTick of its old state; the left channel is untouched |
| Audio.AudioEngine.SettleRight | daz_audio.c:190-199 | a timed-out right channel with a queued word holds it for SETTLE_US as ChannelTick says; the left channel is untouched |
| Audio.AudioEngine.Tick | daz_audio.c:134-203 | both channels advance as ChannelTick says and exactly one word, their two halves, is output |
| HidParser.DecodeHeader | parse_descriptor.c:104-113 | the size, type and tag fields are in range and recombine to the header byte |
| HidParser.HidItemLength | parse_descriptor.c:144-151 | the standard item length equals the parser's step except for size code 3, where it is one byte longer |
| HidParser.ItemStarts | parse_descriptor.c:141-300 | every header position the parser visits lies inside the descriptor |
| HidParser.FourByteItemMisread | parse_descriptor.c:144-151 | on a descriptor with a four-byte Logical Maximum, the parser visits a header at the item's last data byte although the standard item ends the descriptor |
| HidParser.Mask | parse_descriptor.c:253 | the button mask is the single bit bit_counter % 8 |
| HidParser.AddButton | parse_descriptor.c:253-274 | the next free of b1..b4 gets the mask, b1 also fixes buttons_byte, a fifth button changes nothing, and nothing assigned before changes |
| HidParser.InputField | parse_descriptor.c:239-290 | one field keeps the record well formed and earlier assignments, advances the bit counter by the report size and keeps the report globals |
| HidParser.InputFields | parse_descriptor.c:236-291 | count fields advance the bit counter by count * size and keep earlier assignments |
| HidParser.InputButtons | parse_descriptor.c:242-274 | button fields first use up the skip count, then fill b1..b4 in order up to four; other fields touch neither |
| HidParser.InputAxes | parse_descriptor.c:276-289 | the first field under Usage X sets the X offset at the current byte and the Y offset one report size further |
| HidParser.Item | parse_descriptor.c:158-297 | one item keeps earlier assignments and advances the bit counter by count*size for Input, 8 for Report ID, else 0 |
| HidParser.Items | parse_descriptor.c:141-300 | the item loop keeps earlier assignments and never moves the bit counter back |
| HidParser.SkipFor | parse_descriptor.c:123-129 | the skip count is 0 or the count of a table entry with this product id |
| HidParser.SkipTable | parse_descriptor.c:45 | the table skips 12 buttons for product 0x0268 and none otherwise |
| HidParser.Start | parse_descriptor.c:115-136 | the parse starts from a zeroed record, bit counter 0 and the table's skip count |
| HidParser.Parse | parse_descriptor.c:102-319 | the returned flag is set exactly when the axes and all four buttons were found |
| HidParser.SkipButtons | parse_descriptor.c:123-129 | the loop finds the table's skip count for the product id |
| HidParser.ScanField | parse_descriptor.c:239-290 | computes one Input field as InputField says |
| HidParser.ScanInput | parse_descriptor.c:236-291 | the loop over report_count computes InputFields |
| HidParser.ScanItem | parse_descriptor.c:158-297 | computes one item as Item says |
| HidParser.ParseReportDescriptor | parse_descriptor.c:102-319 | the cursor loop over desc_len returns the record and flag Parse gives |
| Keyboard.Column | usb_kbd.c:218-227 | column 1 exactly when either Shift is down; column 2 exactly when no Shift and either Ctrl; else 0 |
| Keyboard.BitOfMask | usb_kbd.c:220-225 | the C modifier masks test bits 1 and 5 (Shift) and 0 and 4 (Ctrl) |
| Keyboard.KeycodeToAsciiAsWritten | usb_kbd.c:229 | the lookup on the table as declared is defined only for keycodes below its 128 rows, and gives 0 for a keycode past the listed rows |
| Keyboard.DeclaredTableAgrees | usb_kbd.c:153 | the declared table has 128 rows, and for every keycode below 128 its lookup agrees with the corrected lookup, because the rows past the listed ones are zero |
| Keyboard.KeycodeToAscii | usb_kbd.c:44-153 | a keycode beyond the listed rows gives no character |
| Keyboard.KeycodeBeyondTable | usb_kbd.c:229 | a report holding keycode 0x87 after an empty report is a new key whose row index is not below the declared table's length, so the lookup as written has no row for it; the corrected lookup gives 0 |
| Keyboard.LetterKeys | usb_kbd.c:49-74 | keycodes 0x04-0x1D give a-z, A-Z with Shift and control codes 1-26 with Ctrl |
| Keyboard.KeyMessage | usb_kbd.c:236-239 | a key message is two bytes headed by DAZ_KEY |
| Keyboard.NewSlots | usb_kbd.c:207-212 | the slots holding a new key (non-zero, absent from the previous report), in increasing order |
| Keyboard.OneMessagePerNewKey | usb_kbd.c:207-241 | exactly one two-byte message per new key, in slot order |
| Keyboard.HeldKeysSilent | usb_kbd.c:211-215 | keys all present in the previous report send nothing |
| Keyboard.RepeatedReportSilent | usb_kbd.c:202-245 | the same report twice in a row sends nothing the second time |
| Keyboard.Mounted | usb_kbd.c:161-169 | mounting leaves a keyboard connected; an already connected keyboard is kept, otherwise the new one is recorded |
| Keyboard.Unmounted | usb_kbd.c:171-179 | unmount disconnects exactly the connected keyboard with this address and instance |
| Keyboard.MountUnmount | usb_kbd.c:161-179 | mount then unmount of the same keyboard leaves none connected; a second keyboard neither replaces nor disconnects the first |
| Keyboard.KeyboardState.constructor | usb_kbd.c:154-158 | no keyboard, an empty previous report, nothing sent |
| Keyboard.KeyboardState.Mount | usb_kbd.c:161-169 | the device record becomes Mounted of the old one |
| Keyboard.KeyboardState.Unmount | usb_kbd.c:171-179 | the device record becomes Unmounted of the old one |
| Keyboard.KeyboardState.ProcessReport | usb_kbd.c:202-245 | appends exactly the messages for the report's new keys and remembers the report |
| Keyboard.FindKeyInReport | usb_kbd.c:191-200 | true exactly when the keycode is one of the report's six |
| Joystick.Signed | usb_joystick.c:204-229 | a byte read as int8_t: in -128..127 and congruent to the byte mod 256 |
| Joystick.JoyValueX | usb_joystick.c:204-215 | left gives -127, centre 0, right +127 |
| Joystick.JoyValueY | usb_joystick.c:218-229 | up gives +127, centre 0, down -127 |
| Joystick.AxisMirror | usb_joystick.c:204-229 | the same raw value gives opposite X and Y positions |
| Joystick.JoyHeader | usb_joystick.c:244-248 | high nibble 1 for joystick 0 and 2 otherwise; bit k set exactly when button k+1 is released |
| Joystick.JoyMessage | usb_joystick.c:243-251 | three bytes headed by the header, the Y byte the mirror of the X decoding |
| Joystick.FirstFree | usb_joystick.c:45-47 | the first slot not connected, all before it connected |
| Joystick.FirstMatch | usb_joystick.c:80-82 | the first slot recorded for the device, none before it |
| Joystick.MountTakesFirstFree | usb_joystick.c:41-57 | a joystick or game pad takes exactly the first free slot with a zeroed previous report; otherwise nothing changes |
| Joystick.UnmountClearsFirstMatch | usb_joystick.c:77-88 | unmount clears connected on exactly the first slot recorded for the device |
| Joystick.MountThenUnmount | usb_joystick.c:41-88 | a device mounted while no connected slot holds it is disconnected by its unmount, other slots unchanged |
| Joystick.RepeatedReportSilent | usb_joystick.c:240-242 | a report is sent once; the same report again sends nothing |
| Joystick.Joysticks.constructor | usb_joystick.c:15-17 | two empty slots, not mounted, nothing sent |
| Joystick.Joysticks.Mount | usb_joystick.c:25-57 | the slots become Mounted of the old ones; the mounted flag is set when a slot was taken and otherwise keeps its value |
| Joystick.Joysticks.Unmount | usb_joystick.c:77-88 | the slots become Unmounted of the old ones |
| Joystick.Joysticks.ProcessJoyInput | usb_joystick.c:231-259 | a report differing from the slot's previous one is stored and its message sent; an equal one changes nothing |

## Left out

- USB host stack, CDC and HID callbacks, VGA scan-out timing, the I2S state
  machine, the alarm pool, printing and the routing in hid_devices.c are not
  modelled. They are hardware or library calls. The scan-out is represented
  only by `Protocol.DisplayBuffer`.
- The RGB values of the colour and grey tables are not modelled. A pixel
  records the table and entry it was drawn from.
- Dazzler.Dazzler.ProcessPacket: usb_getbyte_blocking polls the USB stack until
  a byte arrives. The model has no further input, so a packet that runs out of
  bytes stops there and is reported as blocked.
- Dazzler.Dazzler.RefreshVram: the code passes refresh as false, so raw memory
  is rewritten with its own contents. The model proves raw memory unchanged.
- Protocol.DacOf: the two delay bytes are the operands of one `|`, whose
  evaluation order C leaves unspecified. The model reads the left operand
  first, making the delay little-endian.
- Protocol.DacOf: `getbyte << 8` shifts an int. The result fits in 16 bits, so
  no overflow is possible. The later `delay_us << 16` in audio_add_sample
  overflows a signed int for delays of 0x8000 and above. The model takes the
  intended 32-bit pattern.
- Protocol.PowerOn: the code initialises the mode to 64x64 monochrome while
  the picture-control register is 0, which would decode to 32x32 colour. The
  model keeps both initial values.
- Audio.CommitRightWord: `next_sample[1] << 16` shifts a uint16_t promoted to
  a signed int. The shift overflows int for every value of 0x8000 and above,
  which is every right sample of 0x80 and above, so the C behaviour is
  undefined there. The model takes the unsigned 32-bit pattern: the value in
  bits 16-31 of the word.
- Audio.AudioEngine.Tick: time is a natural number passed in. The 64-bit
  absolute time and its wrap-around are not modelled. The 48 kHz timer period
  is not modelled either.
- Audio.AudioEngine.AddSample: queue_try_add is a bounded queue of 512 words.
  Its locking between cores is not modelled.
- HidParser.Parse: requires the items after the first four bytes to tile the
  descriptor (`Framed`). An item that claims more bytes than remain makes the
  16-bit `desc_len` wrap, and the C loop reads past the buffer.
- HidParser.Data8: for a last item without data the C reads the byte after the
  descriptor in memory. The model takes that byte as the parameter `past`.
- HidParser.InputFields: `bit_counter` is an unbounded natural number. The C
  int never overflows on real descriptors.
- HidParser: size code 3 advances three data bytes, as the code does. Section
  6.2.2.2 of the HID 1.11 specification gives such items four data bytes.
  HidParser.FourByteItemMisread exhibits this, but it is not a Findings row:
  which bytes are then read as headers depends on the device.
- Keyboard.KeyboardState.ProcessReport: the report is taken as the 8-byte
  boot report. The `len` parameter is ignored, as in the code. The debug echo
  of the character is not modelled.
- Joystick.JoyValueX: requires the axis byte to be 0, 127 or 255. The C
  function falls off the end for any other value, so its result is undefined.
- Joystick.Joysticks.ProcessJoyInput: requires those axis values only when the
  report differs from the previous one, which is the only case that calls the
  decoders. The report is taken as the seven bytes of `joystick_report`, and
  `len` is ignored. Bit fields are taken from the least significant bit up.
- Joystick.Joysticks.ProcessJoyInput: usb_send_byte is not defined in the
  repository. The model appends the three bytes to `sent`, as usb_send_bytes
  does.
- Joystick.Joysticks.ProcessJoyInput: its only caller in usb_joystick.c sits
  inside `#if 0`, so the shipped build does not reach it. Live reports go
  through hid_devices.c to joy_process_hid_report, which is not part of this
  model. The model follows process_joy_input as written.
- Joystick.Joysticks.Mount: requires a descriptor of at least four bytes,
  because memcmp reads four. The descriptor dump is not modelled.
  usb_joystick.c defines tuh_hid_mount_cb and tuh_hid_umount_cb, which
  hid_devices.c also defines. The model takes the slot logic of usb_joystick.c
  as it stands.
- schedule_joy_input, the PS3 enable commands, tuh_hid_report_received_cb and
  kbd_schedule_hid_input are not modelled. They only request reports from the
  USB stack.

## Findings

| source | as written | input that shows it | evidently intended | confidence | as-written member | corrected member |
|---|---|---|---|---|---|---|
| usb_kbd.c:153,229 | `keycode2ascii[keycode][modifier]` with a 128-row table and any keycode 0-255 | a report holding keycode 0x87 (International1) after an empty report reads row 135, past the table | a keycode with no row gives no character (0) | not executed | Keyboard.KeycodeToAsciiAsWritten, Keyboard.KeycodeBeyondTable | Keyboard.KeycodeToAscii |
