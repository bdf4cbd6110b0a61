# STK1160 capture core in Dafny

A model of the device-state core of the STK1160 USB video-grabber driver's
Video4Linux2 layer (`stk1160-v4l.c`). It covers the following parts:

- the single-owner guard over open files, and the ioctls it gates;
- the choice of USB alternate setting;
- the videobuf2 callbacks that size and queue capture buffers;
- the stream start and stop sequences;
- the two video-standard register tables and the format geometry.

The device is a class, `Stk1160.Device`, whose fields are the driver's
`struct stk1160` fields that this code reads or writes. Examples are the owning
file, the alternate setting, the packet size, the norm, the geometry, the
isochronous pool size, the list of waiting buffers and the buffer being filled.
Some calls leave the driver for USB, videobuf2 or the decoder chip. These are
register writes, `usb_set_interface`, `usb_submit_urb`, the isochronous pool
operations, the `s_stream` and `s_std` broadcasts, the videobuf2 ioctls and
`vb2_buffer_done`. Each such call is appended to the device's event log.
Whatever those calls return is a parameter of the operation that makes them.
The constants from headers that are not part of this model form a `Config`
value. These are the minimum packet size, the buffer-count bounds, the largest
input, the pool size, the register numbers and the two standard-family masks.

Modules:

- `V4l2` (v4l2.dfy): error numbers, the UYVY fourcc and the pixel-format record.
- `Formats` (formats.dfy): `g_fmt`, `try_fmt`, `enum_fmt`, `enum_input` and `queue_setup` as functions.
- `Standards` (standards.dfy): the two standard families and the sentinel-terminated register tables.
- `Alternate` (alternate.dfy): a recursive specification of the alternate-setting scan, with its two characterising lemmas.
- `Stk1160` (device.dfy): the event log, buffers, open files and the `Device` class.

Three behaviours of the code, all modelled as written:

- `vidioc_s_std` derives width and height from the standard stored before the
  call, not from the one requested. It also claims ownership even when it then
  fails. See Findings.
- A failed `stk1160_start_streaming` does not return to its earlier state. The
  alternate setting and packet size chosen by `stk1160_set_alternate` stay.
- `vidioc_s_fmt_vid_cap` changes no device state. It only claims ownership and
  answers like `try_fmt`.

## Model

| member | source | states |
|---|---|---|
| `Formats.GetFormat` | stk1160-v4l.c:459-473 | the reported format has the current width and height, UYVY pixels and an image size of width*height*2 bytes |
| `Formats.TryFormat` | stk1160-v4l.c:475-501 | any pixel format other than UYVY gets -EINVAL and the record is left alone; UYVY is answered with exactly what g_fmt reports, whatever size was asked |
| `Formats.TryFormatIdempotent` | stk1160-v4l.c:493-500 | trying a format that try_fmt returned gives the same answer again |
| `Formats.EnumFormat` | stk1160-v4l.c:448-457 | only index 0 exists, and it is the pixel format g_fmt reports |
| `Formats.EnumeratedFormatsAreAccepted` | stk1160-v4l.c:480-484 | try_fmt accepts a pixel format exactly when it is the enumerated one |
| `Formats.QueueSetup` | stk1160-v4l.c:740-765 | the buffer count lies in [MIN, MAX]: unchanged inside, MIN below, MAX above; one plane, whose size equals the sizeimage of g_fmt |
| `Formats.EnumInput` | stk1160-v4l.c:581-593 | succeeds exactly for indices up to MAX_INPUT, else -EINVAL |
| `Standards.StdTable` | stk1160-v4l.c:63-109 | the table for a norm has eight real entries and then the 0xffff sentinel; the 525-line table whenever the norm includes a 525-line standard |
| `Alternate.AltScan` | stk1160-v4l.c:132-144 | the scan always leaves a valid setting index |
| `Alternate.ChosenAltFirstSufficient` | stk1160-v4l.c:132-136 | when some setting meets the minimum packet size, the chosen setting is the first such one |
| `Alternate.ChosenAltFallback` | stk1160-v4l.c:137-144 | when none does, the chosen setting has the largest packet size; it is the previous one if that is already largest, otherwise the first of largest size |
| `Stk1160.Completions` | stk1160-v4l.c:269 | picks out of a stretch of the log the buffer completions, each one in the stretch, in order |
| `Stk1160.CompletionsAppend` | stk1160-v4l.c:265-272 | the completions of two consecutive stretches are those of the first followed by those of the second |
| `Stk1160.StopCompletesExactlyTheWaiting` | stk1160-v4l.c:233-279 | a stop completes each buffer that was waiting once, with the error state, in list order, and nothing else |
| `Stk1160.FirstFailure` | stk1160-v4l.c:212-219 | the index of the first failing submission: all before it succeeded, it failed, or all succeeded |
| `Stk1160.Device.constructor` | stk1160-v4l.c:887-893 | a new device has no owner, no pool and no waiting buffer, and has the 525-line default geometry 720x480 |
| `Stk1160.Device.IsOwner` | stk1160-v4l.c:179-182 | the owner may always acquire again, and while someone owns the queue nobody else may |
| `Stk1160.Device.AcquireOwner` | stk1160-v4l.c:162-172 | succeeds iff there is no owner or the caller owns already; afterwards the caller owns, and a failure changes nothing |
| `Stk1160.Device.DropOwner` | stk1160-v4l.c:174-177 | no owner afterwards, whatever there was (so dropping twice is dropping once) |
| `Stk1160.Device.QueueIoctl` | stk1160-v4l.c:380-428 | querybuf, qbuf, dqbuf, streamon and streamoff by a non-owner return -EBUSY and reach neither videobuf2 nor the buffer list; the owner gets videobuf2's answer |
| `Stk1160.Device.ReqBufs` | stk1160-v4l.c:358-378 | a non-owner gets -EBUSY and nothing changes; otherwise the caller owns, gets videobuf2's answer, and owns no longer when the count is zero |
| `Stk1160.Device.Close` | stk1160-v4l.c:311-326 | closing the owner releases the queue and leaves no owner; closing any other file changes nothing |
| `Stk1160.Device.SetFormat` | stk1160-v4l.c:503-523 | claims ownership first, then -EINVAL for a foreign pixel format, -EBUSY while streaming, else 0; the record is left as try_fmt leaves it |
| `Stk1160.Device.SetStd` | stk1160-v4l.c:59-114 | writes exactly the eight entries before the sentinel of the chosen table, in table order: the 525-line table whenever the norm includes a 525-line standard, else the 625-line one |
| `Stk1160.Device.SetStandard` | stk1160-v4l.c:540-578 | -EBUSY for a non-owner or while streaming, -ENODEV when unplugged, -EINVAL with norm, width, height and log unchanged when the stored norm is in neither family; otherwise stores the requested norm, programs its table, broadcasts it, and takes the geometry from the previously stored norm |
| `Stk1160.Device.SetStandardIntended` | stk1160-v4l.c:540-578 | the corrected s_std: -EBUSY for a non-owner or while streaming, -ENODEV when unplugged, -EINVAL for a requested norm in neither family, else success; on success it stores and programs the requested norm and width and height match it |
| `Stk1160.Device.SetInput` | stk1160-v4l.c:602-617 | claims ownership, then rejects exactly the indices enum_input rejects (index > MAX_INPUT); on success stores the input and selects it |
| `Stk1160.Device.BufferQueue` | stk1160-v4l.c:767-799 | unplugged, or shorter than a frame: the buffer is completed with the error state and the list is unchanged; otherwise it is reset to empty and appended at the tail, earlier entries in order |
| `Stk1160.Device.SetAlternate` | stk1160-v4l.c:120-160 | the setting becomes the scan's choice and the packet size that setting's; the interface is switched only if the setting changed; the result is true iff the packet size changed |
| `Stk1160.Device.SubmitAll` | stk1160-v4l.c:211-219 | submits requests in order up to the first failure; a failure tears the pool down and returns that code, and full success leaves the pool as it was |
| `Stk1160.Device.StartStreaming` | stk1160-v4l.c:184-231 | -ENODEV and no change when unplugged; reallocates only without a pool or with a new packet size; a failed allocation or submission returns its code with no decoder start and no DCTRL writes; success ends with the decoder start, DCTRL=0xb3 and DCTRL+3=0x00 |
| `Stk1160.Device.ReleaseAll` | stk1160-v4l.c:263-275 | empties the waiting list, completing each buffer with the error state in list order, and clears the buffer being filled |
| `Stk1160.Device.StopStreaming` | stk1160-v4l.c:233-279 | returns 0; cancels; frees the pool iff buffers are not kept; resets the setting to 0 and stops the hardware only when connected and plugged in; leaves no waiting or current buffer |
| `Stk1160.Device.StopTwice` | stk1160-v4l.c:263-274 | two stops in a row complete exactly the buffers waiting before the first, once each: the second completes none |
| `Stk1160.SwitchTo625KeepsStaleGeometry` | stk1160-v4l.c:557-572 | as written, switching from a 525-line to a 625-line standard stores and programs the 625-line standard but leaves the height at 480 |
| `Stk1160.SwitchTo625UpdatesGeometry` | stk1160-v4l.c:557-572 | with the corrected s_std the same switch leaves the 625-line height 576 |

## Left out

- Locking (`buf_lock`, `v4l_lock`, `wait_prepare`/`wait_finish`): it serves concurrency. Each operation is modelled as atomic.
- The internals of videobuf2 (`vb2_reqbufs`, `vb2_querybuf`, `vb2_qbuf`, `vb2_dqbuf`, `vb2_streamon`, `vb2_streamoff`, `vb2_queue_release`, `vb2_read`, `vb2_poll`, `vb2_mmap`): each call is a log event, and its result is a parameter. That videobuf2 itself calls `start_streaming`, `stop_streaming` and `buffer_queue` is not modelled. Neither is `vb2_queue_release` calling stop on close.
- `vb2_is_streaming` is a parameter of `SetFormat` and `SetStandard`.
- The file operations `stk1160_read`, `stk1160_poll` and `stk1160_mmap`: they pass straight to videobuf2.
- The isochronous machinery: stk1160-video.c is not part of this model. Its calls are log events, and the pool is represented only by its size. A failed `stk1160_alloc_isoc` is modelled as leaving no pool.
- The isochronous completion handler, which fills the current buffer, is not part of this model. The model only clears the current buffer, as stop does.
- The return values of `stk1160_write_reg` and `usb_set_interface` are ignored, as the code ignores them.
- `stk1160_select_input` is a log event.
- The `CONFIG_VIDEO_ADV_DEBUG` register ioctls: they pass through to the hardware.
- Registration glue (`stk1160_vb2_setup`, `stk1160_video_register`): the constructor sets the defaults only. It does not program the registers or broadcast the default standard.
- String filling in `querycap`, `enum_fmt` and `enum_input`.
- `g_chip_ident`, `querystd`, `g_std`, `g_input`, `enum_framesizes` and `enum_frameintervals`: these only read state or return constants.
- The `mem` pointer of a buffer is not modelled.
- 32-bit unsigned arithmetic is not modelled. Width and height are only ever 720×480 or 720×576, so `width*height*2` and `height*bytesperline` cannot wrap.
- The `keep_buffers` module parameter is writable at run time (mode 0644); the model takes it as fixed for the life of a device (`Stk1160.Device.keepBuffers`).
- The disconnect path that clears the USB handle lives outside stk1160-v4l.c and is not modelled; `udevPresent` is only ever set by the constructor here, so the unplugged branches describe a device whose handle was cleared by that path.
- Stk1160.Device.SetStandard: the case where `stk1160_set_std` would stop the kernel with `BUG()` is excluded by a precondition. That case is a stored norm in a family with a requested norm in neither. The V4L2 core passes only norms within the node's `tvnorms`.
- Stk1160.Device.ReqBufs: the count that `vb2_reqbufs` leaves in the request is a parameter. The only assumption is that a request for zero buffers leaves zero.

## Findings

| source | as written | input that shows it | evidently intended | confidence | as-written member | corrected member |
|---|---|---|---|---|---|---|
| stk1160-v4l.c:557-572 | `vidioc_s_std` sets width and height by testing the stored `dev->norm`, and only afterwards stores the requested norm and programs its registers | stored norm 525-line (NTSC), requested norm 625-line only (PAL): the 720x576 window is programmed and the PAL norm stored, but height stays 480, so buffers are sized and checked for 480 lines until the next S_STD; a second identical S_STD(PAL) reads the now-stored PAL norm and sets height 576 | choose width and height from the requested norm | high (not executed) | `Stk1160.SwitchTo625KeepsStaleGeometry` | `Stk1160.Device.SetStandardIntended` |
