# A verified model of rockit-rs

rockit-rs wraps the Rockit media library of Rockchip SoCs in safe Rust, and `rockit-stub` is a
stand-in for that library which a program can be linked against on any machine: fake cameras
(VI), scaling groups (VPSS) and encoders (VENC), the binds between them, and pools of memory
blocks (MB). This project models both halves in Dafny and proves what the one promises to the
other.

There are four parts.

**Streams.** `AnnexB` finds the NAL units of a byte stream and relates the scanner to a grammar.
`AccessUnits` groups them into pictures, prints them again, and settles when a clip can be
looped; `NalTypes` says in numbers what the headers of units mean for that. `Encoder` is the
synthetic encoder and is proved to be inverted by the splitter; `PacketContents` reads a packet
back.

**Frame flow.** `Mpi` is the library's state with its calls, `Flow` the demand-driven pull
through VI, VPSS and VENC. `FlowLaws` and `Blocking` say what an attempt and a blocking call do
to the state, and `Rings` and `RingRuns` when an attempt ends. `Machine` makes one state machine of all calls;
`Pools` and `Invariants` hold in every reachable state, and `Fanout`, `FanoutRuns`, `VencRuns`,
`Outstanding`, `Pacing` and `PacingRuns` speak about whole runs. `Library` is the same library as
an object with mutable tables. It remembers its calls: each of its methods is proved to be one
step of the state machine and to keep the invariant, so that the theorems about runs hold of it.
Its calls that wait interleave with any calls of other threads, which `Waiting` describes.
`Answers` says in plain numbers what calls hand out and take in, and `Acceptance` when they are
accepted.

**Ownership.** `Resources` are the wrapper's allocators of identifiers. `References` counts the
references that owned handles hold, `Views` is what the wrapper can see of the library,
`Teardown`, `Joins` and `Drops` are the `Drop` bodies and what they rely on. `Owned` has the
calls that create handles, `OwnedSound` and `Lifetimes` the theorem that every teardown is clean,
and `OwnedWorks` what creating a handle achieves.

**Images.** `Images`, `Scaling`, `Colour`, `Strides` and `Pattern` are the conversions, the
resampling, BT.601 arithmetic, strided import and the test pattern as functions with their laws;
`Layouts` locates every byte; `ImageLoops` and `PatternLoops` have the loops that compute them in place; `Ratio` has the
fractions that size frame buffers.

A method that loops or changes state in the source is a method here, proved equal to a function;
the laws are lemmas about the function.

## Where the code says something else

- The header of `rockit-stub/src/clip.rs` (lines 3-6) has clips looped frame by frame as long as
  they start with an IDR picture. `split_frames` checks that the first picture is an IDR, but
  not that the first unit starts a picture. `AccessUnits.LoopingIsSound` shows that the second
  is what looping needs, and `AccessUnits.SeamGluesPictures` is a clip that is accepted and
  whose pictures run together at the seam. The loop theorems hold exactly under that condition.
- Scaling up by a whole factor and back is not the identity for every size, because chroma
  planes round up. `Scaling.UpDownExactly` has the condition.
- A raw `ReleaseStream` may name another channel than the one the packet came from, and then
  `outstanding` is wrong and may saturate: `Outstanding.RunGoesWrong` is a run that does so, and
  `Outstanding.OutstandingExactly` has the condition under which the counts are right. With the
  wrapper they always are (`Lifetimes.OutstandingIsLive`, `Teardown.StreamGone`).
- Pulling recurses along the binds, and nothing keeps a program from binding groups in a ring.
  `Rings.DivergesExactly` says when the recursion does not end, and `RingRuns.RingIsReached` has
  a run that gets there; the wrapper cannot (`OwnedSound.DemandEnds`).
- Frames of width or height 0 pass the import. A group with an enabled channel panics on them, and
  so does a synthetic encoder when it comes to make a packet; a group without one ignores them,
  and encoders queue them and play their clips for them.

## Model

| member | source | states |
|---|---|---|
| AnnexB.ScanNalUnits | rockit-stub/src/clip.rs:98-123 | the loop over start codes, the trimming and the filter return the units that the scanning function defines, for every byte string |
| AnnexB.ScanIsTheGrammar | rockit-stub/src/clip.rs:98-123 | the scanner returns a list of units if and only if the bytes can be read as an Annex B stream whose trimmed, nonempty payloads are that list |
| AnnexB.UnitsAreGood | rockit-stub/src/clip.rs:98-123 | every unit returned is nonempty, holds no start code and does not end in a zero byte |
| AnnexB.ScanOfPrint | rockit-stub/src/clip.rs:98-123 | scanning is a left inverse of printing: any list of good units, each behind a 4-byte start code, is found again exactly |
| AccessUnits.GroupFrames | rockit-stub/src/clip.rs:166-189 | the single pass that prints while it groups yields the frames of the declarative grouping, or the truncation error exactly if some unit is too short for its header |
| AccessUnits.Split | rockit-stub/src/clip.rs:166-190 | the whole of `split_frames` as a method, with its three errors |
| AccessUnits.SplitFramesIsFaithful | rockit-stub/src/clip.rs:166-190 | it returns frames if and only if the units can be cut into pictures (one slice or more each, no picture start after the first slice, each but the first opening with a picture start), the rest having no slice, with an IDR first, and returns that cut |
| AccessUnits.SplitIsUnique | rockit-stub/src/clip.rs:166-190 | a list of units can be cut into pictures in at most one way |
| AccessUnits.SplitFramesRefuses | rockit-stub/src/clip.rs:166-190 | exactly when each of the three errors is returned |
| AccessUnits.ResplitChangesNothing | rockit-stub/src/clip.rs:166-190 | splitting the joined output of a split returns the same frames with the same flags |
| AccessUnits.SplitOfPictures | rockit-stub/src/clip.rs:166-190 | printing any proper pictures and splitting the print gives the pictures back |
| AccessUnits.LoopingIsSound | rockit-stub/src/clip.rs:3-6 | an accepted clip can be replayed any number of times, and split into exactly the packets replayed, if and only if its first unit starts a picture |
| AccessUnits.SeamGluesPictures | rockit-stub/src/clip.rs:132-190 | a concrete accepted clip for which two replays split into one picture |
| NalTypes.H264Slices | rockit-stub/src/clip.rs:132-152 | of a stream of one H.264 unit: types 1 to 5 are slices and need a second byte, 5 alone is an IDR |
| NalTypes.H264FirstSlice | rockit-stub/src/clip.rs:132-152 | of an IDR slice and another slice: the second opens a picture exactly if the top bit behind its header is set |
| NalTypes.H264Boundary | rockit-stub/src/clip.rs:132-189 | between an IDR slice and a slice that opens a picture, a unit that is no slice goes to the second picture exactly for types 6 to 9 and 14 to 18, and else to the first |
| NalTypes.HevcSlices | rockit-stub/src/clip.rs:152-162 | of one HEVC unit: types below 32 are slices and need a third byte, 16 to 21 alone are IDRs |
| NalTypes.HevcFirstSlice | rockit-stub/src/clip.rs:152-162 | as for H.264, with the bit behind the header of two bytes |
| NalTypes.HevcBoundary | rockit-stub/src/clip.rs:152-189 | as for H.264, with types 32 to 35, 39, 41 to 44 and 48 to 55 |
| Encoder.SplitterInvertsEncoder | rockit-stub/src/venc.rs:231-271 | for every codec, GOP, channel size and list of images, splitting the joined packets returns the packets, and packet i is an IDR exactly when i is a multiple of the GOP |
| Encoder.PacketCarriesItsNumber | rockit-stub/src/venc.rs:236-271 | the 32-bit sequence number can be read back from a packet's payload, so no two packets of a run are equal |
| PacketContents.PacketReadsBack | rockit-stub/src/venc.rs:231-271 | what a packet holds, read back through the scanner: its units with their headers, the size of the channel digit by digit in the parameter set of a key packet, the number in the slice, and behind it a sample of the image for every 256 pixels, at least 16 and at most 65536, evenly spread over the data and halved |
| FlowLaws.PullConsumesOneFrame | rockit-stub/src/vpss.rs:245-269 | a successful pull on a VPSS channel takes exactly one frame: from a queue on the way, or one new frame from the camera at its end; no group takes in two, and the last thing it does is give out on the channel that was asked |
| FlowLaws.BoundConsumesOneFrame | rockit-stub/src/state.rs:263-270 | the same for a pull through a bind |
| FlowLaws.EveryChannelGetsIt | rockit-stub/src/vpss.rs:33-45 | a frame that one channel asks for, the last input of the pull, reaches every enabled channel of the group once, at the end of its queue, and no other; the channel that asked has it taken out again. A channel with a queued frame gives out that one, and nothing else happens to the group |
| Answers.ProcessAppends | rockit-stub/src/vpss.rs:33-45 | what a frame for a group does to each channel: nothing if it is disabled, and else exactly one image is appended, with the size and format of the channel and the time stamp of the frame; it shows the nearest samples, columns reversed exactly if mirrored and rows exactly if flipped; the queue keeps the latest max(depth, 1) |
| Answers.VpssFrameHandedOut | rockit-stub/src/state.rs:134-155 | a frame of a VPSS channel is handed out as one of a camera is |
| Rings.DivergesExactly | rockit-stub/src/vpss.rs:245-269 | the recursion of a pull fails to end if and only if it leads into a ring of channels that are all enabled, started and without a queued frame, each bound to the next; everywhere else the model has the pull, rings of binds or not |
| Rings.AcyclicExactly | rockit-stub/src/state.rs:263-270 | with given binds every pull ends in every state if and only if there is no ring of binds between channels that can exist |
| RingRuns.AcyclicExactlyInRuns | rockit-stub/src/state.rs:263-270 | every pull ends in every reachable state with given binds if and only if the binds cannot be made or have no ring |
| RingRuns.RingIsReached | rockit-stub/src/vpss.rs:245-269 | every ring that can be bound catches some run: a run of calls leads to a state in which pulls around the ring do not return |
| Rings.SelfBound | rockit-stub/src/vpss.rs:254-263 | an input: a group bound to its own channel asks itself for ever exactly while that channel is started, enabled and empty |
| Flow.PullVi | rockit-stub/src/vi.rs:270-290 | an attempt on a camera is atomic: not-yet and failure change nothing, success changes one channel's number and due time |
| Answers.CameraFrame | rockit-stub/src/vi.rs:270-290 | a frame from a camera has the size and format of its channel and the whole microseconds since the epoch; the channel counts it, and NV12 and YUYV frames show the count in their first four pixels, low byte first, over a gradient given pixel by pixel |
| Answers.CameraCounts | rockit-stub/src/vi.rs:270-290 | so the first four pixels of consecutive frames, as numbers, are consecutive modulo 2 to the 32nd |
| Acceptance.CamerasAnswer | rockit-stub/src/vi.rs:270-290 | an attempt fails exactly if the channel is not enabled and waits exactly until the frame is due |
| Answers.ViFrameHandedOut | rockit-stub/src/state.rs:134-155 | the frame is handed out in a block of its own, packed, described without padding, with twice its number as its time reference and room for one and a half bytes per pixel |
| Flow.PullVpss | rockit-stub/src/vpss.rs:245-269 | wherever the recursion ends, an attempt on a VPSS channel is atomic: not-yet and failure leave the whole state unchanged, and success changes only queues and counters of groups and the pace of cameras |
| Flow.FeedWorks | rockit-stub/src/vpss.rs:258-268 | once the input has arrived the group is as it was, and after `process` the asking channel has a frame: the empty-queue fallback cannot be reached |
| Flow.PullVenc | rockit-stub/src/venc.rs:216-228 | an attempt on an encoder is atomic, takes the head of its own queue if there is one and turns to its bound source only when there is none |
| Blocking.PullBlocking | rockit-stub/src/state.rs:242-260 | the retry loop returns what the first decisive attempt said, times out only if the deadline had expired, and sleeps up to the earlier of the deadline and the time that the last attempt named |
| Blocking.WaitForVpss | rockit-stub/src/state.rs:242-260 | however often it retries, a blocking call takes one frame or none, and every attempt but a delivering one hands the state on unchanged. It times out only once its milliseconds are over, not at all with a negative timeout and in the first turn with 0; each sleep ends at the time the attempt named or with the milliseconds, whichever is earlier |
| Blocking.WaitForVenc | rockit-stub/src/venc.rs:274-291 | the same for a blocking call on an encoder |
| Blocking.FailuresAreNotTimeouts | rockit-stub/src/vpss.rs:245-269 | a failing attempt never carries the code that stands for a timeout |
| Blocking.VencFailuresAreNotTimeouts | rockit-stub/src/venc.rs:216-228 | the same for encoders |
| Blocking.CameraKeepsItsWord | rockit-stub/src/state.rs:224-240 | a camera asked again at the end of such a sleep delivers, unless the milliseconds are over |
| Mpi.ImportOfExport | rockit-stub/src/state.rs:134-182 | a frame that was exported is imported unchanged if its time stamp is not zero, and otherwise with the current time |
| Answers.ImportedRows | rockit-stub/src/state.rs:158-182 | every row of every plane of a frame that is sent is read from its block at the strides of the descriptor, or at its own length where they are shorter |
| Answers.ImportedFrame | rockit-stub/src/state.rs:158-182 | exactly when a frame is taken, and with which size and time stamp |
| Answers.ImportFrameIsExact | rockit-stub/src/state.rs:158-182 | a frame laid out in its block with the strides of its descriptor is taken in exactly, whatever the padding holds |
| Pools.ReleaseKeeps | rockit-stub/src/state.rs:123-131 | releasing a block keeps the books right and never takes a counter below zero |
| Pools.DestroyKeeps | rockit-stub/src/mb.rs:39-54 | a pool is destroyed exactly if it exists and none of its blocks is left |
| Answers.PoolHandsOut | rockit-stub/src/mb.rs:57-73 | a pool hands out a zeroed block of its size exactly while fewer blocks of it are live than it has |
| Pools.PoolsAlwaysOk | rockit-stub/src/state.rs:85-131 | in every reachable state, through any number of exits, `used` is the number of live blocks of a pool and at most its count, and no block names a missing pool |
| Invariants.InvKept | rockit-stub/src/state.rs:42-63 | every call keeps the invariant of the library: well-formed tables, queues within their bounds and empty where they must be, binds kept under the keys by which sources are looked up, pipes owned by one enabled device, nothing but blocks before initialization |
| Invariants.InvAlways | rockit-stub/src/state.rs:42-63 | so it holds in every reachable state; the calls that are no steps are those that do not return |
| Invariants.PullVpssOk | rockit-stub/src/vpss.rs:245-269 | a pull keeps every queue within max(depth, 1), and nonempty only on enabled channels of started groups |
| Invariants.BindPipeOk | rockit-stub/src/vi.rs:156-188 | no two devices ever share a pipe |
| Answers.BindFeeds | rockit-stub/src/sys.rs:30-77 | a bind to any channel of a group, or to any device of an encoder channel, is the one source of that sink until it is undone with the same source |
| Acceptance.DevicesAccept | rockit-stub/src/vi.rs:82-152 | exactly when a device can be configured, enabled and disabled |
| Acceptance.PipesAccept | rockit-stub/src/vi.rs:156-188 | exactly when pipes can be bound to a device |
| Acceptance.CamerasAccept | rockit-stub/src/vi.rs:198-267 | exactly when a camera channel can be configured, enabled and disabled; enabling forgets when its next frame was due |
| Acceptance.GroupsAccept | rockit-stub/src/vpss.rs:70-215 | exactly when groups and their channels can be created, configured, started, enabled, disabled, stopped and destroyed |
| Acceptance.EncodersAccept | rockit-stub/src/venc.rs:67-213 | exactly when encoder channels can be created, started, stopped and destroyed, and take a frame: while fewer than four are queued |
| Answers.EpochIs | rockit-stub/src/state.rs:85-109 | in every run, time stamps count from the start of the library or from its last exit |
| Fanout.DeliveryIsNext | rockit-stub/src/vpss.rs:33-45 | each delivered frame is made from the input that is next, counting inputs and drops so far |
| Fanout.DeliveriesAdvance | rockit-stub/src/vpss.rs:33-45 | later deliveries come from later inputs |
| FanoutRuns.RunPlays | rockit-stub/src/vpss.rs:245-269 | over any run in which a channel stays configured, enabled and started, its state is what its log of inputs and outputs makes of it |
| FanoutRuns.ChannelDeliversInOrder | rockit-stub/src/vpss.rs:110-125 | in every such run the channel delivers an in-order, duplicate-free choice of the group's inputs; only the oldest are dropped, only when the queue is full, and the queue holds the latest. Calls that the library refuses do not end the span |
| FanoutRuns.ChannelsShareInputs | rockit-stub/src/vpss.rs:33-45 | all channels of a group that are on over a run are served from one list, the frames the group has taken in, each once: what each channel delivers, drops and still holds at the end is an in-order choice of that list |
| FanoutRuns.SpanOpensEmpty | rockit-stub/src/vpss.rs:110-196 | whichever call turns a channel on (starting its group, enabling it, configuring it or any other) it begins with an empty queue, as these theorems assume |
| VencRuns.QueueIsLossless | rockit-stub/src/venc.rs:192-228 | from start to stop, the frames accepted, with or without pixels, are those taken from the queue followed by those still in it, at most four, and the bound source is used only when all accepted frames have been taken |
| VencRuns.SyntheticStreamSplits | rockit-stub/src/venc.rs:274-330 | over any run from its creation, refused calls included, the packets of a synthetic channel are handed out under the numbers 0, 1, 2 and so on, are what the encoder makes of the frames under these numbers and, joined, split into exactly these packets |
| VencRuns.ClipStreamSplits | rockit-stub/src/venc.rs:292-302 | over any run, frames without pixels included, a clip channel replays the clip's frames in order for ever under the numbers 0, 1, 2 and so on, and with a clip that opens with a picture start the joined packets split into exactly these packets |
| Answers.NewChannel | rockit-stub/src/venc.rs:67-127 | a new encoder channel makes packets of its codec and size from number 0 on, an IDR every 30 unless told another distance |
| Answers.PacketHandedOut | rockit-stub/src/venc.rs:274-330 | a packet is handed out in a block with exactly its bytes, numbered and counted |
| Outstanding.FairExactly | rockit-stub/src/venc.rs:333-359 | one call keeps every channel's count equal to the number of its packets that are out if and only if the call is fair: a release that is accepted frees exactly one packet, of the channel it names, as long as that channel has any, and no other call frees a packet |
| Outstanding.OutstandingExactly | rockit-stub/src/venc.rs:333-359 | in every run of the library the counts are right at all times if and only if every call is fair |
| Outstanding.SaturatesExactly | rockit-stub/src/venc.rs:355-356 | where the counts are right, an accepted release finds zero exactly if no packet of the channel that it names is out |
| Outstanding.NeverSaturates | rockit-stub/src/venc.rs:355-356 | if every accepted release gives back one packet to the channel it came from and nothing else frees one, the counts are right and the decrement never saturates |
| Outstanding.ForeignRelease | rockit-stub/src/venc.rs:333-359 | giving a packet back to another channel is accepted wherever that channel exists: the block goes, its channel counts on, the other counts one too few or stays at zero |
| Outstanding.RunGoesWrong | rockit-stub/src/venc.rs:333-359 | a concrete run that ends so: the packet of channel 0 goes back to channel 1, which saturates at zero |
| Pacing.NeverEarly | rockit-stub/src/vi.rs:270-290 | after enabling, frame k is never delivered before the first frame's time and k times 10^9 / fps nanoseconds, whatever the calls' times |
| Pacing.WindowHolds | rockit-stub/src/vi.rs:270-290 | a window of length T holds at most floor(T / period) + 2 frames |
| Pacing.TwoAtOnce | rockit-stub/src/vi.rs:281-286 | after a stall two frames come at once, so the bound is met |
| PacingRuns.CameraIsPaced | rockit-stub/src/vi.rs:270-290 | both bounds in every run of the library, whoever pulls, directly or through groups and encoders |
| Library.ProcessChns | rockit-stub/src/vpss.rs:33-45 | the loop over the channels gives the frame to each enabled channel as the specification says; a frame without pixels passes where there is none |
| Library.PushFrame | rockit-stub/src/vpss.rs:39-43 | the loop that drops the oldest frames until there is room for one more |
| Library.Rockit.Process | rockit-stub/src/vpss.rs:33-45 | a group's table after a frame, in place |
| Library.Rockit.SetStarted | rockit-stub/src/vpss.rs:110-125 | starting and stopping a group, with its error codes; the queues are cleared. As for every call of the object: the invariant is kept, and the call and its effect are one step of the state machine |
| Library.Rockit.SendVpss | rockit-stub/src/vpss.rs:218-242 | the new tables and the code of sending a frame to a group, frames without pixels included where no channel takes them; one step of the state machine |
| Library.Rockit.PullVi | rockit-stub/src/vi.rs:270-290 | the in-place attempt on a camera gives the outcome and the state of the specification |
| Library.Rockit.PullVpss | rockit-stub/src/vpss.rs:245-269 | the recursive in-place attempt on a VPSS channel, likewise, wherever it ends |
| Library.Rockit.PullBound | rockit-stub/src/state.rs:263-270 | the dispatch on the bound source, likewise |
| Library.Rockit.PullVenc | rockit-stub/src/venc.rs:216-228 | the in-place attempt on an encoder, likewise |
| Library.Rockit.GetStream | rockit-stub/src/venc.rs:274-330 | the new block, number, count and packet of a stream that is fetched without waiting; one step of the state machine |
| Library.Rockit.ReleaseStream | rockit-stub/src/venc.rs:333-359 | the loop over a packet's blocks, its early error and the saturating count; one step of the state machine |
| Library.Rockit.SendVenc | rockit-stub/src/venc.rs:192-213 | the bounded queue of an encoder: full, stopped and accepted; one step of the state machine |
| Library.Rockit.Exit | rockit-stub/src/state.rs:85-98 | all tables but the blocks are cleared, and the blocks lose their pools in a loop; one step of the state machine |
| Library.Rockit.SetDevBindPipe | rockit-stub/src/vi.rs:156-188 | pipes in range that no other enabled device has, bound once per enable |
| Library.Rockit.OthersHave | rockit-stub/src/vi.rs:172-174 | whether any of the pipes belongs to another enabled device |
| Library.Rockit.GetViFrame | rockit-stub/src/vi.rs:293-316 | the new tables, block and descriptor of a frame that is fetched from a camera without waiting; one step of the state machine |
| Library.Rockit.GetVpssFrame | rockit-stub/src/vpss.rs:272-296 | the same for a frame from a VPSS channel |
| Library.Rockit.PullBlocking | rockit-stub/src/state.rs:242-260 | the retry loop while other threads make any calls between its attempts: only its last attempt changes anything, and the timeout is kept to the millisecond |
| Library.Rockit.AwaitViFrame | rockit-stub/src/vi.rs:293-316 | a waiting call is atomic: whatever others do meanwhile, state, result and history are those of the others' calls followed by the call that does not wait at the time of its last attempt, and the buffer-empty code means that the milliseconds are over |
| Library.Rockit.AwaitVpssFrame | rockit-stub/src/vpss.rs:272-296 | the same for a VPSS channel |
| Library.Rockit.AwaitStream | rockit-stub/src/venc.rs:274-330 | the same for a packet of an encoder |
| Library.CallsSince | rockit-stub/src/state.rs:42-63 | after any calls the object is where a run of its later calls leads from any state that it was in, and that state has the invariant: every theorem about runs holds of the object |
| Library.ObjectDeliversInOrder | rockit-stub/src/vpss.rs:245-269 | for instance, every channel of the object delivers in order since it was turned on |
| Resources.ResourceManager.constructor | src/lib.rs:108-117 | the identifiers below the capacity, all free |
| Resources.ResourceManager.Acquire | src/lib.rs:119-126 | acquiring as the specification on identifiers says, in place |
| Resources.ResourceManager.AcquireSpecific | src/lib.rs:128-135 | likewise for a given identifier |
| Resources.ResourceManager.Release | src/lib.rs:137-144 | likewise for giving one back |
| Resources.AcquireTakesLeast | src/lib.rs:119-126 | it takes the least free identifier, exactly while there is one; free and busy identifiers stay a partition, and releasing undoes it |
| Resources.AcquireSpecificTakes | src/lib.rs:128-135 | it succeeds exactly for free identifiers, keeps the partition, and releasing undoes it |
| Resources.ReleaseFrees | src/lib.rs:137-144 | it succeeds exactly for busy identifiers and frees that one |
| References.GainCounted | src/vpss.rs:273-290 | a new handle raises the strong counts of all it holds |
| References.LoseCounted | src/vpss.rs:519-526 | dropping a field lowers one count, and an object dies exactly with its last reference |
| References.HeldNeedsAlive | src/vpss.rs:519-526 | while handles drop their fields in declaration order, whatever a live object needs is alive |
| Teardown.VencGone | src/venc.rs:358-371 | stopping and destroying an encoder when its last handle goes succeeds (it is never busy: neither started nor bound), its identifier is free afterwards, and wrapper and library agree |
| Teardown.GroupGone | src/vpss.rs:59-78 | the same for a group |
| Teardown.VpssChannelGone | src/vpss.rs:303-314 | the same for a VPSS channel: its group still exists when it is disabled |
| Teardown.CameraGone | src/vi.rs:41-51 | the same for a camera: its device is enabled when it is disabled |
| Teardown.ViChannelGone | src/vi.rs:186-196 | the same for a VI channel |
| Teardown.BindingGone | src/lib.rs:239-255 | the same for a bind: it is still there, with this source, when it is undone |
| Teardown.PoolGone | src/mb.rs:12-22 | the same for a pool: all its blocks are back |
| Teardown.BufferGone | src/mb.rs:113-123 | the same for a buffer of a pool |
| Teardown.FrameGone | src/vi.rs:329-341 | the same for a frame of a camera or a VPSS channel |
| Teardown.StreamGone | src/venc.rs:775-789 | the same for a packet: its channel exists and its count is not zero, so that the decrement never saturates |
| Teardown.SysGone | src/lib.rs:220-231 | when the last reference to the system goes nothing else is alive and nothing is left in the library: exit runs last |
| Drops.DestroyedWorks | src/lib.rs:220-245 | for every kind of object, each native call of its `Drop` body succeeds |
| Drops.DropFieldIsClean | src/venc.rs:665-692 | dropping the next field of any handle at any time keeps everything sound and every native call it makes succeeds |
| OwnedSound.CameraSound | src/vi.rs:85-118 | creating a camera, including its failures halfway, leaves wrapper and library in agreement |
| OwnedSound.ViChannelSound | src/vi.rs:198-260 | the same for a VI channel |
| OwnedSound.ViFrameSound | src/vi.rs:262-300 | the same for a frame from a camera |
| OwnedSound.VencWithSound | src/venc.rs:477-535 | the same for an encoder; its identifier is fresh, so the library never says that it exists |
| OwnedSound.StreamSound | src/venc.rs:441-455 | the same for fetching a packet |
| OwnedSound.DemandEnds | src/vpss.rs:126-138 | the wrapper builds no bind from a group to a group, so every pull it causes ends, on groups and on encoders |
| Lifetimes.GroupSound | src/vpss.rs:80-107 | the same for a group, which is always created: its identifier is fresh |
| Lifetimes.VpssChannelSound | src/vpss.rs:316-361 | the same for a VPSS channel |
| Lifetimes.VpssFrameSound | src/vpss.rs:389-408 | the same for a frame from a VPSS channel |
| Lifetimes.BindSound | src/venc.rs:622-663 | the same for the three kinds of bind |
| Lifetimes.BufferSound | src/mb.rs:24-34 | the same for a buffer |
| Lifetimes.CallIsClean | src/lib.rs:173-215 | every call of the owned interface keeps the world sound, and what it makes a `Drop` body say to the library is accepted |
| Lifetimes.AnyOrderIsClean | src/venc.rs:665-692 | for every sequence of calls and drops, in any order, every native call made from a `Drop` body succeeds, and every pull still ends |
| Lifetimes.DropHandleIsClean | src/venc.rs:599-603 | dropping a whole handle, field by field, is clean at any time |
| Lifetimes.LastHandleGone | src/lib.rs:220-231 | wherever calls and drops lead, the library is initialized exactly as long as a field of a handle is left; once the last is gone it has exited and all its live counts are zero |
| Lifetimes.AllocatorsAgree | src/lib.rs:96-144 | wherever calls and drops lead, free and busy identifiers partition the range, an encoder or a group exists exactly if its identifier is busy, and a device is enabled exactly if its camera's is |
| Lifetimes.OutstandingIsLive | rockit-stub/src/venc.rs:333-359 | wherever calls and drops lead, an encoder's outstanding count is the number of its packets that are still held |
| OwnedWorks.CameraWorks | src/vi.rs:85-118 | a camera whose identifier is free always comes up, enabled and with its pipe |
| OwnedWorks.EncoderWorks | src/venc.rs:455-535 | an encoder that the library can make is made under the identifier asked for, or else the least free one, with the codec, size and GOP asked for |
| OwnedWorks.BindWorks | src/venc.rs:412-426 | a bind that is made leads from the numbers of the source handle to those of the sink handle |
| Images.Convert | rockit-stub/src/image.rs:95-101 | every conversion keeps size and time stamp and returns exactly as many bytes as a frame of its format and size has, all samples read and written in bounds |
| Scaling.Scale | rockit-stub/src/image.rs:103-134 | the same for scaling, which keeps the format |
| Layouts.ScaleShows | rockit-stub/src/image.rs:103-134 | every byte of a scaled image is the byte of the nearest sample, in plain arithmetic, in columns from the right if mirrored and rows from below if flipped |
| Layouts.Nv12LumaOfYuyv | rockit-stub/src/image.rs:136-158 | where every luma byte of an NV12 image made from YUYV comes from |
| Layouts.Nv12ChromaOfYuyv | rockit-stub/src/image.rs:136-158 | its chroma is that of the even rows |
| Layouts.Nv12LumaOfRgb | rockit-stub/src/image.rs:159-171 | luma from RGB, with the coefficients of BT.601 |
| Layouts.Nv12ChromaOfRgb | rockit-stub/src/image.rs:159-171 | chroma from RGB: that of the top left pixel of each block |
| Layouts.YuyvLumaOfNv12 | rockit-stub/src/image.rs:176-202 | where every luma byte of a YUYV image made from NV12 comes from |
| Layouts.YuyvChromaOfNv12 | rockit-stub/src/image.rs:176-202 | both rows of a block have its chroma |
| Layouts.YuyvPadding | rockit-stub/src/image.rs:176-202 | the partner that the last pixel of an odd row lacks is 0 |
| Layouts.RgbOfNv12 | rockit-stub/src/image.rs:203-215 | the bytes of every RGB pixel made from NV12, clipped |
| Images.YuyvRoundTrip | rockit-stub/src/image.rs:136-215 | NV12 to YUYV and back is the identity at every size, odd ones included |
| Images.RgbImageRoundTrip | rockit-stub/src/image.rs:136-215 | an RGB image constant on 2x2 blocks survives NV12 with red and green off by at most 2 and blue by at most 3, at every size |
| Images.GreyImageRoundTrip | rockit-stub/src/image.rs:136-215 | a grey NV12 image survives RGB with exact chroma and luma off by at most 1, at every size |
| Colour.ToYuvNeverClamps | rockit-stub/src/image.rs:223-230 | the clamp changes nothing, and luma and chroma are in their nominal ranges |
| Colour.RgbRoundTrip | rockit-stub/src/image.rs:223-242 | the bounds for a single colour |
| Colour.GreyRoundTrip | rockit-stub/src/image.rs:223-242 | the bounds for a single grey |
| ImageLoops.ToNv12Loop | rockit-stub/src/image.rs:136-174 | the nested loops that write both planes compute the conversion to NV12, all indexing in bounds, at every size |
| ImageLoops.FromNv12Loop | rockit-stub/src/image.rs:176-215 | the same for the conversions from NV12 |
| ImageLoops.ScaleLoop | rockit-stub/src/image.rs:103-134 | the same for scaling, mirroring and flipping |
| Scaling.PickNeverClamps | rockit-stub/src/image.rs:103-134 | the `min` of the nearest-neighbour map never bites |
| Scaling.PickMonotone | rockit-stub/src/image.rs:103-134 | the map is monotone, and antitone when reversed |
| Scaling.TurnsCompose | rockit-stub/src/image.rs:103-134 | at equal size mirror and flip compose as exclusive-or, so each is its own inverse, for odd sizes too |
| Scaling.UpDownExactly | rockit-stub/src/image.rs:103-134 | scaling up by a factor and back is the identity on all images of a size if and only if the larger chroma plane is a whole multiple of the smaller one |
| Scaling.EvenSizesScaleBack | rockit-stub/src/image.rs:103-134 | in particular for even sizes and every factor |
| Scaling.OddSizeLosesChroma | rockit-stub/src/image.rs:103-134 | a size for which it is not |
| Strides.CopyRowsLoop | rockit-stub/src/image.rs:72-80 | the loop over the rows copies them, or fails where a row is missing |
| Strides.ImportLoop | rockit-stub/src/image.rs:64-93 | the import of every format as the specification says |
| Strides.ImportFailsExactly | rockit-stub/src/image.rs:64-93 | it fails exactly for unknown formats and for buffers that end before the last row of a plane |
| Strides.ImportIsExact | rockit-stub/src/image.rs:64-93 | an image laid out with any strides is imported unchanged, whatever the padding holds and whatever follows |
| Strides.ExportRoundTrip | rockit-stub/src/state.rs:134-182 | importing what was exported gives the image back |
| Strides.FrameBufferSuffices | src/mb.rs:211-222 | a buffer of the size the wrapper computes is always large enough to import |
| Ratio.FrameBufferSizeIs | src/venc.rs:50-53 | that size is the size of a frame with both dimensions rounded up to even, unless it does not fit into 32 bits |
| Ratio.GcdLoop | src/util.rs:46-55 | the loop ends with the greatest common divisor |
| Ratio.MulIsExact | src/util.rs:36-44 | a product is exact, keeps a denominator that is not zero, and keeps lowest terms |
| Ratio.MulOverflowsExactly | src/util.rs:36-44 | for a fraction in lowest terms it overflows exactly when no equal fraction has a numerator that fits |
| Ratio.CeilIsLeast | src/util.rs:21-28 | the least integer not below the value |
| PatternLoops.TestPatternLoop | rockit-stub/src/image.rs:36-62 | the loops that paint the gradient, the chroma ramps and the counter compute the test pattern, at every size |
| Pattern.PatternCarriesCounter | rockit-stub/src/image.rs:36-62 | test patterns with different counters differ, in the formats that keep all of NV12 |
| Layouts.PatternShows | rockit-stub/src/image.rs:36-62 | every luma byte of the pattern: the counter, and the gradient that moves with it |
| Layouts.PatternChromaShows | rockit-stub/src/image.rs:36-62 | every chroma byte of the pattern |

## Left out

- Failure injection, the call log, environment variables, clip files and the embedded clips:
  a channel's clip is an input of its creation, and calls fail only where the library itself says so.
- The layout of error codes (module and level bits): codes are named values.
- Sequence numbers, pool identifiers and outstanding counts are unbounded here and 32 bits wide
  in the source; time stamps and deadlines are unbounded as well.
- Calls from which the source does not return are no steps of `Machine`: asking where the recursion
  does not end, scaling a frame without pixels and encoding one. The conditions are exact
  (`Flow.Ends`, `Flow.Scalable`, `Flow.Packs`), and nothing is said about the process afterwards.
- Callers give a new block an address that no block has, write a block as a whole, and create
  channels only with clips that have frames, as the loader of clips does.
- Blocking.PullBlocking: does not model the condition variable or real time; wake-ups are a
  script of turns, and nothing is said about fairness. The same holds of the calls of the object
  that wait.
- Threads: the library's lock makes each attempt and each call that does not wait one step, and so
  it is here.
- Raw pointers, null checks and the self-pointers of `StreamFrame`: blocks are handles into a
  table, and a new block's handle is a fresh value.
- The borrowed handles with lifetimes and `mem::forget`: the owned handles carry the protocol.
- Owned handles are lists of counted references in the order in which their fields drop, and a
  program may stop between two fields; this allows more interleavings than Rust does. Clones of
  a handle share references and not identity.
- `VENC_SetChnRefBufShareAttr`, the virtual address of a block, and the configuration of codecs,
  profiles and rate control: they touch nothing that is modelled.
- The AIQ wrapper, the bindings, the build scripts and the examples.
