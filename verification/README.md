# A verified model of a real-time audio engine

A supervisor, a capture thread, a processing thread and a playback thread move chunks of audio through a configurable
pipeline. This project models the parts of that engine whose correctness spans several functions, threads or chunks, and
proves what they promise. `dafny verify dfyconfig.toml` checks everything.

| file | what it models |
|---|---|
| `audio.dfy`, `frames.dfy`, `sounds.dfy` | chunks and waveforms; byte counts in whole frames; telling sound from silence |
| `config.dfy`, `validation.dfy` | configurations, and the walk that follows the channel count through the pipeline |
| `volume.dfy` | the volume control and its ramps |
| `mixer.dfy` | building, checking, updating and running a mixer |
| `pipeline.dfy`, `parallel.dfy` | building and running the steps; merging filter steps for parallel work |
| `semantics.dfy`, `live_meaning.dfy` | what a configuration means, step by step on streams of chunks, and that the pipeline computes it; what a live pipeline does in any state |
| `masking.dfy`, `mask_limits.dfy` | leaving out capture channels that nobody listens to, and when that shows |
| `reconfigure.dfy`, `engine.dfy`, `loop_meaning.dfy` | differences between configurations, patching a live pipeline, the processing loop and the audio it sends on |
| `commands.dfy` | commands of the user: the waiting loop and the running supervisor |
| `threads.dfy`, `thread_flow.dfy`, `thread_reports.dfy` | the start barrier, the bounded queues and the shutdown of the four threads; the way of each chunk, each change of parameters and each report through them |
| `playback.dfy` | threaded ALSA playback: ring buffer, byte counter and partial writes |
| `rendezvous.dfy`, `session_events.dfy` | full-duplex ASIO: registering two sides, publishing and freeing their contexts, and what the events alone tell about it |
| `asio_buffers.dfy`, `asio_bytes.dfy` | taking frames apart and putting them together, and the place of each byte in plain numbers |
| `callbacks.dfy`, `callback_silence.dfy`, `callback_origins.dfy` | the ASIO playback callback: queueing, when silence comes and how much, and where each byte that leaves comes from |
| `capture_ring.dfy` | the ASIO capture callback and the ring buffer behind it |
| `delay.dfy`, `subsample.dfy`, `limiter.dfy` | the delay filter, its allpass for fractions of a sample, and the limiter |
| `filecapture.dfy`, `capture_messages.dfy`, `file_origins.dfy` | capturing from a file: read limit, short reads, extra silence at the end, pauses, the messages sent, and where each byte sent comes from |

Filters and processors are arbitrary functions with a private state. They come, together with 10 to the power of x, in a
record `World` that every statement quantifies over. A filter keeps the length of a waveform and leaves an empty one empty;
a processor keeps the number of channels. Objects that the program updates in place are classes here (`Volume`, `Pipeline`,
`Supervisor`, `InnerLoop`, `PlaybackContext`, `CaptureContext`, `Delay`, `Limiter`, `CaptureLoop`), and each method is tied
to a function or to a step of a state machine about which the lemmas then speak. Threads, drivers, devices and users are
steps of state machines; a run is any sequence of steps, so that every interleaving is covered.

Where the program does not do what it is meant to do, the model follows the program, and the exact condition is proved:

- `Mixers.RepeatedSourceIsAccepted`: the check for a source listed twice never reports anything, since nothing is ever
  entered in the list it looks at (`src/mixer.rs:143-159`); such a mixer adds the source twice.
- `Mixers.UpdateAgreesIffNothingIsMuted`: updating a mixer in place forgets its mutes (`src/mixer.rs:70-91`); it agrees with
  a rebuild if and only if no source is muted. `Reconfigure.ParameterChangeNamesNoMixer` shows that it never happens.
- `Pipelines.AcceptedBuildsIff`: an accepted configuration can be built unless an active filter step meets a missing
  filters section, which only a step without names gets past the check (`src/pipeline.rs:224`).
- `Reconfigure.UpdateIsSafeIff`: the difference of two configurations does not look at a processor's kind
  (`src/config/utils.rs:488-497`); updating in place to an accepted configuration is safe if and only if the active
  processors keep their kinds and no active filter step has lost the filters section.
- `MaskLimits.UnseenIffNoProcessorBefore`: leaving out unused channels goes unseen at the first mixer, whatever the filters
  and processors do, if and only if no active processor comes before that mixer; `Masking.ProcessorSeesTheMask` is an example.
- `MaskLimits.OldMaskIsUnseenIff`: chunks in flight can carry the mask of an earlier configuration (`src/bin.rs:229-234`);
  that goes unseen if and only if the old mask lets all channels through that are used now.
- `VolumeControl.CompletedRampStopsOneStepShort`: the last ramped sample is one step away from the level that is held
  afterwards, and the next ramp starts from that sample.
- `Rendezvous.NeverStuck`: when one side leaves before it has registered, nothing wakes the other one
  (`src/asio_backend/device.rs:623-756`). The two sides are stuck if and only if one has ended and the other waits without
  having been woken, and a session ends that way if and only if exactly one side failed to open the driver or refused it
  (`Rendezvous.LeftBehindIffOneGaveUp`); `Rendezvous.LoneSideWaitsForever` is an example.
- `Threads.PanicsIffChangeIsTooLate`: a change of parameters is sent to the processing thread with an `unwrap`
  (`src/bin.rs:229`). It panics if and only if that thread has exited, which it can only after capture has sent its last
  message (`Threads.ChangeIsSafeDuringCapture`); `Threads.LateChangePanics` is an example.
- `FileOrigins.FileThenSilenceIff`: a read that times out half way is filled up with silence meant for the end of the
  stream (`src/file_backend/device.rs:398-414`). A stream that ended without pauses is the file followed by the silence if
  and only if no such read came with silence left and more to read; `FileCapture.TimeoutFillsUpTheMiddle` is an example.
- A comment at `src/asio_backend/device.rs:277-278` says that there is no extra silence on the first start; the code adds it
  on every start, and so does `AsioCallbacks.ReadOnce`.

## Model

| member | source | states |
|---|---|---|
| VolumeControl.UndisturbedRamp | src/filters/basicfilters.rs:126-219 | a fader movement left alone is followed for exactly the ramp time in chunks, on one straight line in dB across chunk boundaries from the last ramped level to the goal; then the goal is held |
| VolumeControl.JumpWithoutRamp | src/filters/basicfilters.rs:148-185 | without ramp time a fader movement is followed at once, cut off at the limit, and the level stays |
| VolumeControl.HoldingChangesNothing | src/filters/basicfilters.rs:148-219 | as long as the fader is left alone, a held level leaves the whole state as it is |
| VolumeControl.PlanScales | src/filters/basicfilters.rs:187-219 | every sample is multiplied with zero while a mute is held, and otherwise with ten to the power of a twentieth of its level in dB |
| VolumeControl.RampStartsWhereTheLastOneEnded | src/filters/basicfilters.rs:148-219 | a ramp that interrupts another one starts at the level of the last ramped sample |
| VolumeControl.CompletedRampStopsOneStepShort | src/filters/basicfilters.rs:126-145 | a finished ramp leaves the level one sample step before the goal, and on the goal only if there was no distance |
| VolumeControl.TargetTracksFader | src/filters/basicfilters.rs:148-185 | for any fader history the target stays within the change threshold of the last reading cut off at the limit, and the mute is the last one |
| VolumeControl.Volume.PrepareProcessing | src/filters/basicfilters.rs:148-185 | picking up the fader gives the state the ramp lemmas start from |
| VolumeControl.Volume.ProcessChunk | src/filters/basicfilters.rs:187-219 | each chunk advances the ramp by one step; every sample is multiplied with zero while a mute is held, and otherwise with ten to the power of a twentieth of its level |
| Mixers.ValidateMixer | src/mixer.rs:121-163 | accepts exactly the mixers whose channels exist and whose destinations differ; the repeated-source error is never reported |
| Mixers.RepeatedSourceIsAccepted | src/mixer.rs:143-159 | a mixer with one source listed twice is accepted, and its output is twice the input |
| Mixers.CheckedMixerIsValid | src/mixer.rs:40-67 | a checked mixer never indexes out of range |
| Mixers.BuildTable | src/mixer.rs:40-67 | entering mappings one by one gives each output the sources of its own mapping, muted ones left out |
| Mixers.UpdateAgreesIffNothingIsMuted | src/mixer.rs:70-91 | an update in place equals a rebuild if and only if no source of the new configuration is muted |
| Mixers.MixerComputesItsConfiguration | src/mixer.rs:94-118 | every output sample is the sum, read directly off the configuration, of the unmuted sources of the output's mapping: sample i of the channel, times the linear gain or ten to the power of a twentieth of the gain in dB, with the sign turned if inverted, and nothing for a channel that is empty |
| Mixers.OneSourceScales | src/mixer.rs:94-118 | one source with a linear gain: every sample of the output is that sample of the input times the gain, or minus that |
| Mixers.ProcessChunk | src/mixer.rs:94-118 | accumulating source by source computes all outputs, skipping channels that are empty |
| Mixers.UsedInputChannels | src/mixer.rs:166-179 | marks exactly the inputs that some unmuted source of an unmuted mapping names |
| Mixers.RowReadsUsedChannels | src/mixer.rs:166-179 | a built mixer reads no input that is not marked |
| Validation.ValidateConfig | src/config/utils.rs:633-814 | accepts exactly the configurations in which every step fits the channels that arrive at it and the last width is the playback width |
| Validation.CheckMixerStep | src/config/utils.rs:638-670 | a mixer step passes if and only if its mixer exists, is well routed and takes the width that arrives; the walk goes on with its output width |
| Validation.CheckFilterStep | src/config/utils.rs:671-707 | a filter step passes if and only if its channels are in range and distinct and its filters exist and are valid |
| Validation.CheckProcessorStep | src/config/utils.rs:708-803 | a processor step passes if and only if its processor exists, is valid and has the width that arrives |
| Pipelines.AcceptedBuildsIff | src/pipeline.rs:181-303 | an accepted configuration can be built if and only if no active filter step meets a missing filters section |
| Pipelines.NamelessFilterStepIsAcceptedButNotBuildable | src/pipeline.rs:218-240 | a filter step without names is accepted without a filters section and cannot be built |
| Pipelines.BuildStepsFit | src/pipeline.rs:181-303 | the steps built so far fit the capture width and put out the width the check has walked to |
| Pipelines.AcceptedRunsSafely | src/pipeline.rs:338-376 | an accepted configuration that can be built runs on any chunks of the capture width without an index or lookup out of range, and every output has the playback width |
| Semantics.PipelineMeansItsConfiguration | src/pipeline.rs:338-376 | for every accepted configuration that can be built and any run of chunks: what comes out, merged or not, is what the steps of the configuration one after the other make of the chunks times the volume gain; a filter step puts its filters, each new, in list order on each of its channels and carries the states from chunk to chunk, a mixer adds up what its configuration says, a processor works on all channels, a bypassed step does nothing |
| Semantics.MeaningIsUnique | src/pipeline.rs:338-376 | that meaning leaves nothing open: from the same chunks the same streams follow |
| Semantics.GroupWorksInOrder | src/pipeline.rs:118-125 | one chunk through a filter group: each filter gets what the one before it put out and keeps the state it returned; the last output takes the place of the waveform, and all other channels stay |
| Semantics.GroupFilters | src/pipeline.rs:118-125 | over any run of chunks a filter group puts out on its channel what its filters make of the stream there, and leaves the others alone; empty waveforms pass and leave the states alone |
| LiveMeaning.LivePipelineWorks | src/pipeline.rs:338-376 | any live pipeline, in whatever states and merged or not, over any run of chunks: each step in turn makes of the whole stream what its routing table, its filters in list order or its processor say, from the states they are in; so also after an update in place |
| Semantics.ProcessorsMeetTheirWidth | src/config/utils.rs:708-803 | over any run of chunks, every chunk that arrives at an active processor has the number of channels the processor is set up for |
| Semantics.PipelineIsChecked | src/config/utils.rs:633-814 | every mixer, filter and processor of the pipeline that is built has passed the check of its settings |
| Parallel.ParallelizeFilters | src/pipeline.rs:378-435 | emptying the step list into banks of filters per channel gives the merged pipeline |
| Parallel.MergedFits | src/pipeline.rs:378-435 | merging keeps every index in range and every width |
| Parallel.BankThenGroup | src/pipeline.rs:118-159 | filters added to one channel of a bank act as a group run after the bank |
| Parallel.ParallelIsSequential | src/pipeline.rs:378-435 | for any steps and any run of chunks, the merged pipeline gives the outputs of the sequential one and ends as its merged form, states included |
| Parallel.FilterInParallel | src/pipeline.rs:148-159 | whatever turns the workers take, the result is that of running the channels one after the other |
| Masking.UsedCaptureChannels | src/config/utils.rs:819-833 | marks exactly the inputs the first active mixer uses, or all of them when there is none |
| Masking.UnusedChannelsDoNotShow | src/config/utils.rs:819-833 | two chunks that differ on unused channels only come out equal, although filter states may differ |
| Masking.MaskingIsInvisible | src/config/utils.rs:819-833 | with no processor before the first mixer, empty waveforms on unused channels change no output of any run, merged or not |
| Masking.OnlyUsedChannelsMatter | src/config/utils.rs:819-833 | with no processor before the first mixer, two runs of chunks that differ on unused channels in any way give the same outputs, merged or not |
| Masking.ProcessorSeesTheMask | src/config/utils.rs:819-833 | an example: one processor before the first mixer lets the mask through to the output |
| MaskLimits.UnseenIffNoProcessorBefore | src/config/utils.rs:819-833 | for every accepted configuration that can be built and has an active mixer, a used and an unused channel: the mask goes unseen at the first mixer, for all filters and processors, if and only if no active processor comes before it |
| MaskLimits.OldMaskIsUnseenIff | src/bin.rs:229-234 | a mask that belongs to another configuration, the one before or the one to come, goes unseen at the first mixer if and only if it lets every channel through that is used now |
| MaskLimits.OldMasksAreInvisible | src/bin.rs:229-234 | with such a mask on each chunk, whichever it is, no output of any run changes |
| MaskLimits.ParameterChangeKeepsMask | src/config/utils.rs:434-503 | a change of parameters never moves the set of used channels |
| Reconfigure.CollectChanged | src/config/utils.rs:450-497 | lists exactly the names that both sections have with different settings |
| Reconfigure.ConfigDiff | src/config/utils.rs:434-503 | the change reported is the right kind of change, and lists exactly the names that changed |
| Reconfigure.ParameterChangeNamesNoMixer | src/config/utils.rs:434-503 | a change of parameters never carries a mixer |
| Reconfigure.UpdateIsRebuild | src/pipeline.rs:305-335 | patching a live pipeline after a change that keeps processor kinds is safe and gives, apart from states, what a rebuild gives |
| Reconfigure.RunningKeepsSettings | src/pipeline.rs:338-376 | running chunks changes states only |
| Reconfigure.KindChangeIsMissed | src/config/utils.rs:488-497 | replacing a compressor by a noise gate of the same name counts as a change of parameters, and updating is then not safe |
| Reconfigure.UpdateIsSafeIffKindsKept | src/pipeline.rs:305-335 | when the next configuration can be built, updating is safe if and only if every active processor keeps its kind |
| Reconfigure.UpdateIsSafeIff | src/pipeline.rs:305-335 | when the next configuration is only known to be accepted, updating is safe if and only if, in addition, no active filter step meets a missing filters section |
| Engine.BuildPipeline | src/pipeline.rs:181-303 | the loop builds the steps, merged if the configuration says so |
| Engine.Pipeline.ProcessChunk | src/pipeline.rs:338-376 | one call is one step of the run the pipeline lemmas are about: volume first, then all steps in place |
| Engine.Pipeline.UpdateParameters | src/pipeline.rs:305-335 | a listed filter or processor gets its new settings and the state that retuning makes of its own; everything else stays as it is, states included |
| Engine.HandleMessage | src/processing.rs:133-178 | audio is processed by the live pipeline, everything else is passed on unchanged |
| Engine.ApplyMessage | src/processing.rs:179-203 | after a configuration message the live pipeline is, apart from states, the one built from its configuration; a change of parameters keeps the volume control, any other change starts all states and the volume control anew |
| Engine.ProcessingLoop | src/processing.rs:133-203 | for any sequence of audio and configuration messages: the messages sent and the pipeline left are those of handling round after round, at most one configuration message each; every audio message is forwarded once, in order, up to the end of the stream, with the playback width; after k configuration messages the pipeline is the one built from the k-th configuration, apart from states |
| LoopMeaning.EveryMessageIsTaken | src/processing.rs:179-203 | every round that finds a configuration message takes one, as long as there are any |
| LoopMeaning.TakenMessage | src/processing.rs:179-203 | a round that takes a change of parameters hands over the new settings and keeps the volume control; one that takes any other change ends with the pipeline of the new configuration, at the volume of that moment |
| LoopMeaning.LoopRunsThePipeline | src/processing.rs:133-178 | as long as no configuration message is taken, the audio sent on is what the live pipeline makes of the audio, in order, and the pipeline ends in the state of that run |
| LoopMeaning.LoopMeansItsConfiguration | src/processing.rs:133-178 | from a pipeline that was just built, until the next message is taken, with pauses in between: the audio sent on is what the configuration means for the audio that arrives |
| LoopMeaning.RunsInParts | src/processing.rs:133-203 | a run of the loop can be cut at any round, for instance where a message was taken |
| LoopMeaning.NewVolumeHolds | src/filters/basicfilters.rs:65-101 | a new volume control holds the level it was built with as long as the fader stays there |
| LoopMeaning.NewVolumeRamps | src/filters/basicfilters.rs:65-101 | its first ramp starts at that level, or at the level that stands for a mute, and takes the ramp time of the configuration |
| Commands.LastCommandWins | src/bin.rs:217-272 | whenever no command is waiting, the shared active configuration is that of the last command, or none after Stop, although superseded changes are dropped |
| Commands.SupervisorSendsTheDifferences | src/bin.rs:217-254 | the messages to the processing thread are the differences between consecutive configurations and lead to the shared one |
| Commands.Supervisor.Obey | src/bin.rs:217-285 | obeying a command changes the supervisor's variables as a step of the command machine; Stop leads to a restart, Exit ends the program, a new configuration leads to a restart if and only if it is for other devices and no command waits behind it |
| Commands.EndsIff | src/bin.rs:1179-1262 | in every run the program ends with a step that takes Exit from the queue, or with one of the main loop that finds neither a command nor a configuration and is not to wait; with no other step |
| Commands.StopsRunningIff | src/bin.rs:217-285 | in every run running stops with Stop, Exit, a last configuration for other devices, or a failure, and with nothing else; Stop and failures lead back to waiting with no configuration |
| Commands.SwitchesIff | src/bin.rs:217-236 | in every run the running configuration changes with a last, different configuration for the same devices, and with nothing else; each change sends one message |
| Commands.StartsRunningIff | src/bin.rs:1179-1262 | in every run running starts when the main loop finds a configuration and no command, with that configuration, and at no other time |
| Commands.PreviousIsWhatStopped | src/bin.rs:255-285 | in every run the previous configuration is the one that ran until a command or a failure stopped it |
| Commands.RunsAgain | src/bin.rs:1179-1262 | after a stop, once the queue has drained and the last command brought a configuration, the next step of the main loop runs it |
| Threads.BarrierIsJoinedOnce | src/bin.rs:294-346 | in every run the supervisor joins the start barrier at most once, and exactly once when it has opened |
| Threads.StartMakesProgress | src/bin.rs:157-160 | every step before the barrier opens brings its opening closer |
| Threads.BarrierOpensSoon | src/bin.rs:294-346 | for every order of ready and error messages the barrier has opened after six steps |
| Threads.NeverStuck | src/processing.rs:133-203 | in every reachable state, for queues of any size of at least one, some thread can move without the user's help, unless all have ended or the supervisor has panicked |
| Threads.PanicsIffChangeIsTooLate | src/bin.rs:220-236 | in every run, the supervisor panics if and only if it obeys a change of parameters when the processing thread has exited |
| Threads.ChangeIsSafeDuringCapture | src/bin.rs:220-236 | in every reachable state, a change of parameters is sent safely as long as capture has not sent its last message |
| Threads.LateChangePanics | src/bin.rs:220-236 | an example: a stream ends by itself before playback has begun, and then the parameters are changed |
| Threads.CommandBeginsShutdown | src/bin.rs:217-285 | Stop, Exit and a change of devices begin a shutdown whenever they are obeyed |
| Threads.HearingBeginsShutdownIff | src/bin.rs:291-430 | in every reachable state, what the running supervisor hears begins a shutdown if and only if playback is done or one side has failed; a failed playback has capture told to exit, and a request for another speed is passed on |
| Threads.ShutdownMakesProgress | src/generatordevice.rs:162-207 | from then on every step of every thread reduces the work left |
| Threads.ShutdownIsBounded | src/bin.rs:237-285 | no interleaving after that is longer than the work that was left |
| Threads.ShutdownCompletes | src/bin.rs:237-285 | an interleaving that cannot go on has ended all threads, so both joins return |
| Threads.StepIsGood | src/file_backend/device.rs:176-218 | every step of every thread keeps the invariant behind all of this |
| ThreadFlow.NoChunkIsLost | src/processing.rs:133-178 | over every run: what playback writes is what capture read, in order and each chunk once, up to some chunk; as long as the processing thread runs the others are on their way; and a playback that has got the end of the stream, or has ended with its device open, has written them all |
| ThreadFlow.EndGetsThrough | src/processing.rs:154-178 | in every reachable state: the processing thread has not ended without handing the end of the stream on to a playback that is there, and capture does not report that it is done before it has; playback never finds its queue broken |
| ThreadReports.NoReportIsLost | src/bin.rs:291-430 | over every run the supervisor hears every report of the other threads, that a device is open or not, that a write failed, that another speed is wanted, that a side is done, once and in order, up to what still waits |
| ThreadFlow.NoChangeIsLost | src/bin.rs:220-236 | over every run each change of parameters asked for while the processing thread is there is taken up once or still waits |
| ThreadedPlayback.NothingIsLost | src/alsa_backend/threaded_device.rs:361-556 | for any partial, empty or stalled writes: the audio the device has taken, computed from its answers alone, is a prefix of what was pushed, what is missing is in hand or in the ring buffer, silence comes between frames only, the byte counter is right, and playback is done only when everything was taken |
| ThreadedPlayback.PlaybackCompletes | src/alsa_backend/threaded_device.rs:361-556 | once the end of the stream was sent, with a device that takes at least a frame of every write: the inner loop gets to its end after a bounded number of steps, and by then everything that was pushed has been taken |
| ThreadedPlayback.NeverWritesSilenceForData | src/alsa_backend/threaded_device.rs:211-236 | the branch for less than a frame of data is never reached |
| ThreadedPlayback.IdleDeviceGetsSilence | src/alsa_backend/threaded_device.rs:500-556 | with nothing to play, a device that runs low gets whole frames of silence, and nothing else changes |
| ThreadedPlayback.StepKeepsInv | src/alsa_backend/threaded_device.rs:254-296 | every step of either thread keeps bytes conserved and aligned |
| ThreadedPlayback.InnerLoop.PreparePlaybackBytes | src/alsa_backend/threaded_device.rs:211-236 | the buffer starts with the bytes left over or, without any, with the largest number of whole frames at hand, which leave the front of the ring buffer |
| ThreadedPlayback.InnerLoop.ApplyPlaybackWriteResult | src/alsa_backend/threaded_device.rs:239-288 | after an answer of n frames the bytes behind the first n frames are kept for the next write and the counter goes down by what was taken; a stalled write keeps everything |
| Rendezvous.NoUseAfterFree | src/asio_backend/device.rs:234-244 | in every interleaving over any number of sessions, the driver never works on a freed context, and no freed context is patched |
| Rendezvous.FreedWhenOutOfReach | src/asio_backend/device.rs:1612-1635 | a context is freed only with its pointer null, no callback on it, and the stream never started or stopped |
| Rendezvous.StreamLivesOnce | src/asio_backend/device.rs:550-788 | buffers are created, the stream started, stopped and disposed of at most once each, in this order, with both contexts published; no side succeeds before the start |
| Rendezvous.SessionEndsClean | src/asio_backend/device.rs:759-788 | a session whose stream was on ends with one stop, one disposal and the shared state empty |
| Rendezvous.NeverStuck | src/asio_backend/device.rs:623-788 | no wake-up is lost: in every reachable state in which not both sides have ended, some step makes progress if and only if it is not so that one side has ended and the other waits without having been woken |
| Rendezvous.AbandonedForever | src/asio_backend/device.rs:623-788 | a side left waiting like that waits forever: no run changes anything any more, and nothing of the stream was ever set up |
| Rendezvous.LeftBehindIffOneGaveUp | src/asio_backend/device.rs:623-788 | a session that cannot go on has left a side behind if and only if exactly one side failed to open the driver or refused it in this session |
| Rendezvous.LoneSideWaitsForever | src/asio_backend/device.rs:550-616 | an example: the capture side cannot open the driver, and the playback side is left waiting |
| Rendezvous.StepKeepsInv | src/asio_backend/device.rs:623-788 | every step of a side or the driver keeps the invariant |
| SessionEvents.EveryContextIsFreedOnce | src/asio_backend/device.rs:1612-1635 | told by the events alone, over any number of sessions: the driver never works on a freed context, none is freed twice, and when both sides have ended every context is freed |
| SessionEvents.StreamIsHandledOnce | src/asio_backend/device.rs:550-788 | told by the events alone: creating the buffers, writing their addresses into the contexts, starting, stopping and disposing happen at most once in a session, in this order, and all of them when the stream was on; the driver may call back exactly between start and disposal |
| SessionEvents.StreamingIsServed | src/asio_backend/device.rs:234-244 | while both sides stream, a callback finds the contexts of both |
| AsioBuffers.CopyFromQueueAtOffset | src/asio_backend/utils.rs:41-54 | copying from a queue stored in two slices is copying from their concatenation, across the seam |
| AsioBuffers.Deinterleave | src/asio_backend/device.rs:288-308 | every channel that has a buffer finds its own bytes there, in order; a missing buffer is skipped |
| AsioBuffers.Interleave | src/asio_backend/device.rs:361-381 | the frames of all channels one after the other; where a buffer is missing the old bytes stay |
| AsioBuffers.ChannelAt | src/asio_backend/device.rs:288-308 | sample n of a channel is the channel's part of frame n |
| AsioBuffers.InterleaveUndoesDeinterleave | src/asio_backend/device.rs:361-381 | taking frames apart and putting them together gives them back |
| AsioBytes.ByteOfChannel | src/asio_backend/device.rs:288-308 | byte b of sample n of channel c is byte (n * channels + c) * sample + b of the frames |
| AsioBytes.ByteOfFrame | src/asio_backend/device.rs:361-381 | and back: that byte of the frames is the channel's, or what was there before if the channel has no buffer |
| CallbackSilence.SilenceWhenNeeded | src/asio_backend/device.rs:259-286 | filling the queue, whatever arrives meanwhile: a running queue gets silence only for what is missing when nothing is left in the ring buffer; a queue that starts again waits behind the prefill once there is something to play |
| CallbackOrigins.MarksDoNotShow | src/asio_backend/device.rs:255-311 | for any bytes, the run of the program is the run in which the pushed bytes are marked, with the marks taken off |
| CallbackOrigins.FillingKeepsFrames | src/asio_backend/device.rs:259-286 | filling the queue, whatever bytes are there and arrive meanwhile, loses and reorders none of them and keeps whole frames |
| CallbackOrigins.PlaybackKeepsFrames | src/asio_backend/device.rs:255-311 | over every run of pushes of any bytes, partial ones included, and callbacks: each byte that leaves is silence or has the number of an accepted byte that it equals, the numbers count up from zero without a gap, numbers and silence change over at frames only, and the sizes of ring buffer and queue are multiples of the frame size |
| CallbackOrigins.AcceptedIsKept | src/asio_backend/device.rs:255-311 | over every such run, what was accepted is what has left apart from silence, then what waits in the queue, then what waits in the ring buffer |
| CallbackOrigins.ChannelsNeverRotate | src/asio_backend/device.rs:255-311 | over every such run, a byte leaves at the place within a frame at which it was accepted, so it stays on its channel |
| AsioCallbacks.PlaybackContext.constructor | src/asio_backend/device.rs:1364-1402 | frame, buffer, prefill and ring buffer have these sizes, all of them whole frames |
| AsioCallbacks.PlaybackContext.Produce | src/asio_backend/device.rs:1570-1590 | pushes as much of a chunk as there is room for |
| AsioCallbacks.DropsOnlyWhenFull | src/asio_backend/device.rs:1570-1590 | bytes are dropped only when the ring buffer is full, and then from their end |
| AsioCallbacks.PlaybackContext.FillQueue | src/asio_backend/device.rs:259-286 | the loop ends, with at least one buffer queued |
| AsioCallbacks.PlaybackContext.BufferSwitch | src/asio_backend/device.rs:234-321 | a callback that can serve emits exactly one buffer of frames: with index 0 each first buffer that is there gets its channel and each second one stays, with index 1 the other way round; further channels stay, and any other callback changes nothing |
| CaptureRing.CaptureContext.constructor | src/asio_backend/device.rs:1770-1802 | scratch and ring buffer have these sizes, whole frames |
| CaptureRing.CaptureContext.Consume | src/asio_backend/device.rs:1982-2027 | a read takes out as much as there is, up to a chunk, and leaves the rest of the data buffer as it was |
| CaptureRing.CaptureKeepsFrames | src/asio_backend/device.rs:329-410 | over every run of callbacks and reads, overruns and reads that time out included: what was accepted is taken out in order, ring buffer and reads are whole frames, and every byte of the data buffer, also one left from an older chunk, stands at the place within a frame at which it was accepted |
| CaptureRing.ReadsInOrder | src/asio_backend/device.rs:1990-2027 | a read that has waited long enough gets exactly the next bytes that were accepted |
| CaptureRing.CaptureContext.BufferSwitch | src/asio_backend/device.rs:329-410 | a callback that can serve interleaves all first buffers at index 0, all second ones at index 1, pushes what there is room for, and notifies how much that was if the channel has room |
| AsioCallbacks.Loopback | src/asio_backend/device.rs:288-381 | frames played into channel buffers and captured from them come back as they were |
| Subsample.SubsampleDelayIsExact | src/filters/basicfilters.rs:328-364 | requests of a tenth of a sample and more: whole samples and group delay at frequency zero add up to the request; the filter is a stable allpass |
| Subsample.SubsampleDelayIsExactIff | src/filters/basicfilters.rs:328-364 | a request is met exactly if and only if it is zero or at least a tenth of a sample |
| Subsample.Parted | src/filters/basicfilters.rs:344-353 | the whole part is never negative, and the rest lies between 1.1 and 2.1 samples |
| Subsample.PartsMeetTheRequest | src/filters/basicfilters.rs:368-402 | without the flag a delay is the nearest whole number of samples; with it a request of less than a tenth of a sample is dropped and any other met exactly by the queue and a stable allpass |
| Subsample.LineIsDelayed | src/filters/biquad.rs:435-440 | the filter step delays a straight line by exactly the group delay |
| DelayLine.DifferenceEquation | src/filters/biquad.rs:435-440 | whatever came before, every sample the section puts out obeys the difference equation of its five coefficients |
| DelayLine.NewDelayFilters | src/filters/basicfilters.rs:368-444 | a new delay filter obeys it from its first sample on, for the silence in its queue and the stream behind that, in chunks of any size |
| DelayLine.TwoPassIsSingles | src/filters/basicfilters.rs:415-444 | processing a waveform in two passes equals processing its samples one by one, for any stateful second stage |
| DelayLine.ChunkingDoesNotShow | src/filters/basicfilters.rs:433-444 | how a stream is cut into chunks shows neither in the output nor in the state |
| DelayLine.StreamIsDelayed | src/filters/basicfilters.rs:386-444 | over any run of chunks the second stage gets n samples of silence and then the stream |
| DelayLine.RequestIsMet | src/filters/basicfilters.rs:368-444 | in the steady state a straight line leaves queue and allpass together late by exactly the requested number of samples, in chunks of any size |
| DelayLine.FullRing.PushOverwrite | src/filters/basicfilters.rs:433-440 | pushing into a full ring buffer returns the oldest sample and keeps the order |
| DelayLine.Delay.ProcessSingle | src/filters/basicfilters.rs:415-425 | one sample through queue and second stage |
| DelayLine.Delay.ProcessWaveform | src/filters/basicfilters.rs:433-444 | the waveform is overwritten, in two passes, with what the two-pass function says |
| DelayLine.FromRequest | src/filters/basicfilters.rs:368-402 | a new filter is silent, with the queue and the allpass of its request: the nearest whole number of samples without the flag, an allpass with the flag from a tenth of a sample on |
| Limiting.SoftClipIsMonotone | src/filters/limiter.rs:52-59 | louder input never gives quieter output |
| Limiting.SoftClipIsBounded | src/filters/limiter.rs:52-59 | the output stays within the limit and reaches it exactly from one and a half times the limit on |
| Limiting.SoftClipIsOdd | src/filters/limiter.rs:52-59 | both signs are treated alike |
| Limiting.SoftClipCurve | src/filters/limiter.rs:52-59 | up to one and a half times the limit the output is the input less its cube over 6.75 times the square of the limit |
| Limiting.HardClipIsNearest | src/filters/limiter.rs:61-65 | the output of a hard clip is the one value within the limit that is nearest to the input |
| Limiting.ClippedStaysWithin | src/filters/limiter.rs:52-73 | after either clip the waveform is within the limit, and a hard clip changes it no more |
| Limiting.Limiter.ApplyClip | src/filters/limiter.rs:67-73 | every sample of the array is clipped in place, the chosen way |
| FileCapture.CaptureConserves | src/file_backend/device.rs:347-429 | for every run: frames sent and frames withheld by pauses are those read and the extra silence used so far; at the end of the stream everything was read and all extra silence added; the limit is never exceeded; with nothing withheld, and data that can be told from silence, the sound sent is what was read, in order |
| FileCapture.FileThenSilence | src/file_backend/device.rs:347-414 | for any file, zero bytes included: without pauses, and without a half-read timeout that finds silence left and more to read, the stream is what there was to read followed by the extra silence |
| FileOrigins.MarksDoNotShow | src/file_backend/device.rs:313-528 | for any file, the run of the program is the run in which the bytes of the file are marked, with the marks taken off |
| FileOrigins.FileStaysInOrder | src/file_backend/device.rs:347-429 | for any file and every run with nothing withheld, the bytes sent that come from the file are what was read, in order and without a gap |
| FileOrigins.FileThenSilenceIff | src/file_backend/device.rs:347-414 | for any file, a stream that ended without pauses is made of what there was to read and of the extra silence after it if and only if there was no such timeout |
| FileCapture.TimeoutFillsUpTheMiddle | src/file_backend/device.rs:398-414 | an example: a half-read timeout puts extra silence in the middle of the stream |
| FileCapture.PausesAfterSilence | src/utils/countertimer.rs:79-99 | after any run, the next chunk is withheld if and only if it and the last chunks, as many as the limit says, are silent |
| CaptureMessages.EndIsSentOnceAndLast | src/file_backend/device.rs:313-414 | over every run, commands to exit included, the end of the stream is sent once, as the last message, and not before capturing stops |
| CaptureMessages.ExitEndsAtOnce | src/file_backend/device.rs:314-324 | a command to exit ends the capture at once: nothing is read any more and nothing but the end is sent |
| CaptureMessages.ReadSends | src/file_backend/device.rs:347-528 | what each read sends: a pause, the rest of the silence and the end, or one message with the bytes read filled up to a chunk; a short read is made longer by extra silence as far as there is room and silence |
| FileCapture.LimitCapture | src/file_backend/device.rs:250-269 | a read never goes past the limit, and is cut short only at the limit |
| FileCapture.CaptureLoop.LimitCaptureBytes | src/file_backend/device.rs:250-269 | the buffer holds the read; a buffer that is too small is extended |
| FileCapture.CaptureLoop.ZeroTail | src/file_backend/device.rs:365-367 | a short read is followed by silence up to the end of the chunk, whatever was there before |
| FileCapture.CaptureLoop.SendSilence | src/file_backend/device.rs:678-704 | the silence is sent in chunks that add up to it |
| FileCapture.SilencePayload | src/file_backend/device.rs:678-704 | the frames of these chunks that count are exactly the silence asked for |
| FileCapture.CaptureLoop.Round | src/file_backend/device.rs:313-528 | one round of the loop is one step of the capture machine |
| FileCapture.CaptureLoop.Loop | src/file_backend/device.rs:313-528 | the loop performs the run that the lemmas are about |

## Left out

- Floating point: samples, levels, delays and coefficients are exact reals; rounding, NaN, flushing of subnormals and the conversions through 32-bit floats in the byte budget of file capture are not modelled.
- Integer width: counters and lengths are unbounded, so overflow of `usize` and `u64` is not modelled.
- Filters and processors: their arithmetic, except for delay, limiter and the second-order section behind the delay, is not modelled; errors returned by a filter inside a parallel step are ignored.
- Volume filters on several channels: they share the current volume through atomics, which the private states of the model exclude; a ramp time that changes during a ramp is not modelled either.
- Chunk metadata: time stamps, minimum and maximum, and the frame count of a partly filled chunk are left out, except in file capture.
- Validation.ValidateConfig: the checks of devices, resamplers, target levels, files, tokens and overrides are left out; filters and processors are checked by a predicate of the world.
- Engine.Pipeline.ProcessChunk: the steps are values held by the pipeline object, so sharing between steps is not modelled; the load measurement and the overload counter are left out.
- Engine.ProcessingLoop: the capture thread hanging up on its channel, the spectrum and the load measurement are left out; when a configuration message arrives is arbitrary.
- MaskLimits.OldMasksAreInvisible: chunks of any masks on the pipeline of one configuration, from its start; a resampler in the capture thread, which skips masked channels as well, is left out.
- MaskLimits.UnseenIffNoProcessorBefore: what shows is what arrives at the first active mixer; whether the steps behind it let that through is left open.
- Commands.SupervisorSendsTheDifferences: assumes that the processing thread receives what is sent; Threads.PanicsIffChangeIsTooLate says when it does.
- Commands.LastCommandWins: the websocket server, signals and configuration files that produce commands are left out.
- Threads.NeverStuck: capture is the signal generator and playback the file writer, polling and time are left out; the file capture loop goes on after a read error and is not part of this statement.
- ThreadedPlayback.NothingIsLost: a write that fails with an error loses the bytes of that write and is excluded; prefilling, opening and recovering the device, and the capture side are left out.
- ThreadedPlayback.PlaybackCompletes: a device that never takes a frame is excluded; how long a write takes is not modelled.
- AsioCallbacks.PlaybackContext.BufferSwitch: the buffers of the driver, both halves of every channel, are assumed to be different memory.
- LoopMeaning.LoopMeansItsConfiguration: speaks of a pipeline that was just built; after a change of parameters the states go on from what retuning makes of them, for which LiveMeaning.LivePipelineWorks and Engine.Pipeline.UpdateParameters say what happens.
- Rendezvous.NoUseAfterFree: assumes that stopping the stream and disposing of the buffers return only when no callback is running, and that a failed start leads to no callback; a new session begins only after both sides have ended, with the shared state empty or as it was created.
- Rendezvous.SessionEndsClean: sessions with a setup error keep the error in the shared state, so that only safety is stated for them.
- FileOrigins.FileThenSilenceIff: is about where the bytes come from; for a file that itself contains zero bytes, silence in the wrong place may go unnoticed in the plain bytes.
- CallbackOrigins.PlaybackKeepsFrames: which bytes a push into a full ring buffer drops is modelled, the waiting before it and the estimate of the fill level are not.
- DelayLine.RequestIsMet: is about the steady state; how fast a stable filter gets there is not stated.
- FileCapture.CaptureConserves: no resampler, whole frames in file, limit and timeouts, no read errors, no change of the sample rate; the buffer starts with room for a chunk, as it does without a resampler (`src/file_backend/device.rs:570-576`).
- Resamplers, sample formats, convolution, the other filters and processors, and the CoreAudio, WASAPI, JACK, CPAL and unthreaded ALSA backends.
- YAML and JSON, command line, logging, status reports, rate control and thread priorities.
