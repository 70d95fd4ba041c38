# Azure Kinect samples: handle lifecycle, run loop and rendering rules

This project models, in Dafny, the control logic shared by the Azure Kinect
sample programs. These are the C, C++ and C# viewers for depth, infrared,
transformation, body index maps, skeletons, point clouds, playback and
recording.

**Handles and ticks.** Every handle the samples obtain from the k4a and k4abt
SDKs goes into a trace of events, held in the `Handles` module:
- `Acquire` when a getter hands out a reference;
- `Use` for a call made through a pointer;
- `Release` when the reference is released;
- `NullUse` for a call made through a NULL pointer.

The member pointers of a `kinect` object are the `slots` of an `Env`. Three
kinds of assignment differ:
- a C release keeps the pointer's value;
- a C++ `reset()` clears the pointer;
- a C++ move-assignment releases the previous handle.

Each sample's `update` + `draw` pass is a pure `Tick` function over an `Env`
and a `TickInput`. The `TickInput` says:
- how the capture request and the tracker answered (`k4a_wait_result_t`);
- which image planes the capture carried;
- which key `cv::waitKey` returned;
- whether the viz viewer was closed.

A tick ends in one of four ways:
- the loop goes on;
- an exception is thrown;
- the object destroys itself (`this->~kinect()` on a timeout);
- the recording ends (`std::exit`).

**Runs and startup.** The `run` loop of every sample is `Samples.Run`, taken
over a finite sequence of polls. For the C transformation and body-index-map
viewers, whose ticks have handle defects (see "## Findings"), `Samples.Run`
runs the corrected ticks; their runs as written are
`Samples.TransformationRunAsWritten` and `Samples.IndexMapRunAsWritten`. Startup and shutdown calls are modelled in
`Session`:
- `initialize` and its sub-steps;
- `finalize`;
- the point where the destructor runs `finalize`.

**C# windows.** Their per-iteration bodies are modelled, including the
`using` scopes and the `Window_Closing` teardown.

**Pure functions.** These are:
- the colour tables;
- the label and skeleton palette lookups;
- the joint marker rules;
- the saturating 8-bit display maps;
- the buffer layouts;
- the C# BGRA colouriser loop;
- the recording file name.

Modules, one file each:
- `handles.dfy`: the handle trace, the `Env` state and the assignment primitives.
- `pipeline.dfy`: the stages several samples share.
- One file per sample family:
  - `viewer_c.dfy`, `viewer_cpp.dfy`
  - `transformation_c.dfy`
  - `index_map_c.dfy`, `index_map_cpp.dfy`
  - `skeleton_c.dfy`, `skeleton_cpp.dfy`
  - `playback_cpp.dfy`, `point_cloud_cpp.dfy`
  - `record_c.dfy`, `record_cpp.dfy`
  - `cs_loop.dfy`, `cs_index_map.dfy`, `cs_skeleton.dfy`
- `samples.dfy`: the run loop.
- `session.dfy`: startup, shutdown and a whole life of a sample object.
- `render.dfy`, `markers.dfy`, `layout.dfy`, `record_name.dfy`: the pure parts.

## Behaviour at the edges

- **End of a recording.** `update_frame` of the playback sample calls
  `std::exit(EXIT_SUCCESS)` at end of file, so `finalize` never runs.
  `Samples.Stop.Exited` is a stop that `Session.Finalizes` excludes.
- **The failure path.** The C samples throw out of `update` with the capture
  still outstanding, and `finalize` does not release it. Their `Fatal`
  outcome carries the `Env` as it was when the exception was thrown.
- **Exit status.** Every `main` catches the exception, prints it and
  returns 0. Exit statuses are not modelled.

## Model

The `Handles` primitives are generic: each of their rows cites one example call site, and the same primitive models every such call in the samples.

| member | source | states |
|---|---|---|
| Handles.Mint | sample/c/index_map/kinect.cpp:172-176 | (example site) A getter puts a new owned reference in its pointer; a reference the pointer still owned is lost as a leak; legality and Mats are unchanged |
| Handles.Touch | sample/c/index_map/kinect.cpp:208-213 | (example site) A call through a pointer is legal exactly when the pointer owns a live reference; a call through a NULL or released pointer marks the object as misused |
| Handles.Convert | sample/c/index_map/kinect.cpp:273-281 | (example site) `k4a_get_mat` is legal exactly when the pointer owns its image, and afterwards that Mat holds data |
| Handles.Free | sample/c/transformation/kinect.cpp:203-214 | (example site) A C release gives up the reference but leaves the pointer set; releasing through a pointer that no longer owns is a misuse |
| Handles.Reset | sample/cpp/index_map/kinect.cpp:220-231 | (example site) `reset()` gives up the reference and clears the pointer; nothing is leaked |
| Handles.Fetch | sample/c/index_map/kinect.cpp:186-194 | (example site) A C assignment from a getter leaves the pointer owning a new image when the capture has one and NULL otherwise, and loses any reference the pointer still owned |
| Handles.Assign | sample/cpp/index_map/kinect.cpp:165-169 | (example site) A C++ move-assignment never leaks: the new handle (or NULL) replaces the old one, which is released |
| Handles.Extract | sample/c/index_map/kinect.cpp:233-237 | (example site) A C getter through another handle reads the source (legal only if owned) and stores a new reference or NULL into the destination, leaking what it owned |
| Handles.Take | sample/cpp/index_map/kinect.cpp:189-193 | (example site) A C++ getter through another handle reads the source and move-assigns into the destination without leaking |
| Handles.MintSound | sample/c/index_map/kinect.cpp:172-176 | (example site) After a getter, the outstanding handles of the trace are still exactly the owning pointers' handles plus the leaked ones, and `ok` still means the trace is well formed |
| Handles.TouchSound | sample/c/index_map/kinect.cpp:208-213 | (example site) A call through a pointer keeps the bookkeeping in agreement with the trace, including when the pointer dangles |
| Handles.FreeSound | sample/c/depth/kinect.cpp:144-155 | (example site) A C release keeps the bookkeeping in agreement with the trace, including a second release of a dangling pointer |
| Handles.ResetSound | sample/cpp/depth/kinect.cpp:124-135 | (example site) `reset()` keeps the bookkeeping in agreement with the trace |
| Handles.FetchSound | sample/c/depth/kinect.cpp:126-134 | (example site) A C assignment from a getter keeps the bookkeeping in agreement with the trace, a lost reference counting as leaked |
| Handles.AssignSound | sample/cpp/depth/kinect.cpp:110-114 | (example site) A move-assignment (acquire new, then release old) keeps the bookkeeping in agreement with the trace |
| Handles.SwapSound | sample/cpp/record/kinect.cpp:160-164 | (example site) Replacing a set handle (acquire new, release old) keeps the bookkeeping in agreement with the trace |
| Handles.ExtractSound | sample/c/skeleton/kinect.cpp:197-205 | (example site) A C getter through another handle keeps the bookkeeping in agreement with the trace |
| Handles.TakeSound | sample/cpp/skeleton/kinect.cpp:171-179 | (example site) A C++ getter through another handle keeps the bookkeeping in agreement with the trace |
| Handles.ConvertSound | sample/c/infrared/kinect.cpp:144-155 | (example site) Copying an image to its Mat keeps the bookkeeping in agreement with the trace |
| Handles.StartSound | sample/c/index_map/kinect.cpp:17-26 | (example site) A freshly constructed object, with every pointer NULL, agrees with the empty trace |
| Handles.QuiescentMeans | sample/c/index_map/kinect.cpp:144-169 | (example site) When the bookkeeping agrees with the trace and nothing is owned or leaked, every SDK call so far was legal and no handle is outstanding |
| Handles.OwnsAssign | sample/cpp/playback/kinect.cpp:171-175 | (example site) Under the RAII wrappers a move-assignment keeps every set handle owning its reference and sets or clears exactly the assigned one |
| Handles.OwnsReset | sample/cpp/record/kinect.cpp:184-195 | (example site) Under the RAII wrappers `reset()` keeps every other handle owning and clears exactly the reset one |
| Handles.OwnsTake | sample/cpp/point_cloud/kinect.cpp:156-167 | (example site) Under the RAII wrappers a getter through a set handle keeps every handle owning and sets or clears exactly the destination |
| Pipeline.FrameC | sample/c/index_map/kinect.cpp:172-183 | In the C samples a succeeded capture request yields a new capture, FAILED throws, TIMEOUT destroys the object |
| Pipeline.FrameCpp | sample/cpp/index_map/kinect.cpp:154-162 | In the C++ samples a successful `get_capture` move-assigns the capture; a false return tears the object down or, where the sample throws instead, throws |
| Pipeline.TrackC | sample/c/index_map/kinect.cpp:208-230 | The capture is enqueued before the pop; the body frame is obtained exactly when both succeed; a FAILED enqueue or pop throws and a TIMEOUT tears down |
| Pipeline.TrackCpp | sample/cpp/index_map/kinect.cpp:179-186 | The C++ tracker enqueues before popping, yields a body frame exactly when both succeed, and throws otherwise |
| Pipeline.PlaneC | sample/c/transformation/kinect.cpp:144-163 | A C plane getter does nothing on a NULL capture; otherwise the plane's pointer owns a new image exactly when the capture carries that plane and is NULL otherwise |
| Pipeline.DrawC | sample/c/depth/kinect.cpp:144-155 | A C draw step skips a NULL pointer; otherwise it fills the Mat and releases the image, leaving the pointer set |
| Pipeline.DrawCpp | sample/cpp/depth/kinect.cpp:124-135 | A C++ draw step skips an empty handle; otherwise it fills the Mat, releases the image and clears the handle |
| Pipeline.OwnsDrawCpp | sample/cpp/infrared/kinect.cpp:124-135 | Under RAII a C++ draw step keeps every handle owning, clears exactly the drawn one, and fills its Mat exactly when it was set |
| Pipeline.PlaneCSound | sample/c/infrared/kinect.cpp:126-134 | A C plane getter keeps the bookkeeping in agreement with the trace |
| Pipeline.DrawCSound | sample/c/infrared/kinect.cpp:144-155 | A C draw step keeps the bookkeeping in agreement with the trace |
| Pipeline.DrawCppSound | sample/cpp/infrared/kinect.cpp:124-135 | A C++ draw step keeps the bookkeeping in agreement with the trace |
| ViewerC.Tick | sample/c/infrared/kinect.cpp:112-123 | A C single-plane tick goes on exactly when the capture request succeeds, throws exactly on FAILED, tears down exactly on TIMEOUT |
| ViewerC.TickQuiescent | sample/c/depth/kinect.cpp:99-155 | A C depth or infrared tick leaves nothing outstanding and refills the Mat exactly when the capture carried the plane; a tick without a capture changes nothing |
| ViewerC.TickSound | sample/c/infrared/kinect.cpp:99-155 | A C single-plane tick keeps the bookkeeping in agreement with the trace |
| ViewerCpp.Tick | sample/cpp/infrared/kinect.cpp:99-107 | A C++ single-plane tick goes on exactly when `get_capture` succeeds, and ends in teardown on a timeout |
| ViewerCpp.TickClean | sample/cpp/depth/kinect.cpp:86-135 | A C++ depth or infrared tick that starts with every handle empty ends with every handle empty; the Mat is refilled exactly when the capture carried the plane |
| ViewerCpp.TickSound | sample/cpp/infrared/kinect.cpp:86-135 | A C++ single-plane tick keeps the bookkeeping in agreement with the trace |
| TransformationC.Transformation | sample/c/transformation/kinect.cpp:166-170 | The transformation is skipped, changing nothing, unless both the colour and the depth image are set |
| TransformationC.Tick | sample/c/transformation/kinect.cpp:111-141 | The transformation viewer's tick goes on exactly on a successful capture, throws exactly on FAILED, tears down exactly on TIMEOUT |
| TransformationC.TickFixed | sample/c/transformation/kinect.cpp:130-141 | The corrected tick has the same three outcomes as the tick as written |
| TransformationC.TransformPulled | sample/c/transformation/kinect.cpp:166-187 | On pulled planes, `update_transformation` creates and owns both transformed images exactly when both colour and depth are present |
| TransformationC.UpdateDrawable | sample/c/transformation/kinect.cpp:111-127 | From a ready state `update` leaves exactly the carried planes, and their transforms when both were carried, owned, with the capture released; a failed update changes nothing |
| TransformationC.DrawFixedReady | sample/c/transformation/kinect.cpp:190-214 | The corrected `draw` releases and clears everything `update` left, and the colour and depth Mats hold data exactly when they did before or the image was there |
| TransformationC.TickFixedReady | sample/c/transformation/kinect.cpp:203-244 | The corrected tick keeps the ready state (nothing outstanding, no transformed pointer set), and fills the colour and depth Mats exactly when the capture carried them |
| TransformationC.TickSound | sample/c/transformation/kinect.cpp:111-244 | Both ticks, as written and corrected, keep the bookkeeping in agreement with the trace |
| TransformationC.BothPlanesLeaveStalePointers | sample/c/transformation/kinect.cpp:231-244 | As written, a tick with colour and depth leaves nothing outstanding but both released transformed images still in their pointers |
| TransformationC.DrawAsWritten | sample/c/transformation/kinect.cpp:190-244 | As written, `draw` releases everything `update` left but leaves every pointer as it was |
| TransformationC.StaleReuse | sample/c/transformation/kinect.cpp:168-170 | As written, after such a tick any capture missing colour or depth skips the transformation and then draws the released transformed images again |
| TransformationC.StaleTransformedImages | sample/c/transformation/kinect.cpp:231-244 | From a fresh object, a full tick followed by a tick without depth already misuses a released handle |
| IndexMapC.Transformation | sample/c/index_map/kinect.cpp:240-257 | The transformation as written is skipped, changing nothing, unless depth and the body index map are set; the colour image is not checked |
| IndexMapC.TransformationFixed | sample/c/index_map/kinect.cpp:240-248 | The corrected transformation also requires the colour image it reads the size from |
| IndexMapC.Convert2 | sample/c/index_map/kinect.cpp:247-256 | The two image creations and the custom transformation give owned transformed depth and index map images, and are legal exactly when depth and the index map are owned |
| IndexMapC.Step | sample/c/index_map/kinect.cpp:144-169 | The body index tick goes on exactly when capture, enqueue and pop all succeed, and throws exactly when the first of them that does not succeed failed |
| IndexMapC.TickFixedReady | sample/c/index_map/kinect.cpp:144-169 | The corrected tick (colour guard, depth released, transformed pointers cleared) keeps the ready state whenever the tracker answered |
| IndexMapC.FullTickAsWritten | sample/c/index_map/kinect.cpp:197-205 | As written, a tick with colour, depth and an index map misuses nothing but ends with the depth image still owned and the released transformed index map still in its pointer |
| IndexMapC.DepthNeverReleased | sample/c/index_map/kinect.cpp:197-205 | As written, the depth image pulled on a tick is still outstanding when the tick ends |
| IndexMapC.DepthLeaks | sample/c/index_map/kinect.cpp:197-205 | As written, the next tick overwrites the depth pointer, so the handle it held is lost with its reference outstanding |
| IndexMapC.DepthLeakFromStart | sample/c/index_map/kinect.cpp:197-205 | From a fresh object, the second full tick leaks the depth image of the first |
| IndexMapC.NullColorRead | sample/c/index_map/kinect.cpp:240-248 | As written, a tick with depth and an index map but no colour reads the colour size through a NULL pointer |
| IndexMapC.NullColorFromStart | sample/c/index_map/kinect.cpp:247-248 | From a fresh object, a first capture without colour already reads through NULL |
| IndexMapC.StaleIndexMap | sample/c/index_map/kinect.cpp:301-313 | As written, a tick without an index map after one that left the released transformed index map in its pointer draws that released image again |
| IndexMapC.StaleIndexMapFromStart | sample/c/index_map/kinect.cpp:301-313 | From a fresh object, a full tick and then a tick without an index map reuse a released image |
| IndexMapCpp.Transformation | sample/cpp/index_map/kinect.cpp:196-204 | The C++ transformation is skipped, changing nothing, unless both the depth image and the index map are set |
| IndexMapCpp.TransformationHeld | sample/cpp/index_map/kinect.cpp:196-204 | The mapped index map is held exactly when depth and the index map are; the mapped depth bound to `std::ignore` is released at once |
| IndexMapCpp.Tick | sample/cpp/index_map/kinect.cpp:126-162 | The C++ body index tick goes on exactly when the capture and the tracker answer, tears down exactly on a capture timeout, and throws otherwise |
| IndexMapCpp.TickSettled | sample/cpp/index_map/kinect.cpp:207-259 | A tick that reaches `draw` from a settled state ends settled: only this tick's depth image is still held, exactly when the capture had depth; the colour, index map and mapped index map Mats are refilled exactly when their images were present |
| IndexMapCpp.TransformedShownAfter | sample/cpp/index_map/kinect.cpp:295-328 | The mapped index map is shown after a tick exactly when it was already filled or this tick had both depth and an index map; it is blended with colour exactly when the colour Mat is filled |
| IndexMapCpp.TickSound | sample/cpp/index_map/kinect.cpp:126-259 | A C++ body index tick keeps the bookkeeping in agreement with the trace |
| SkeletonC.Inference | sample/c/skeleton/kinect.cpp:197-205 | `update_inference` reads through the body frame, leaves the colour pointer set exactly when the frame's capture had colour, and releases that capture at once |
| SkeletonC.Bodies | sample/c/skeleton/kinect.cpp:208-222 | `update_skeleton` goes on exactly when every skeleton can be read, and otherwise throws |
| SkeletonC.Tick | sample/c/skeleton/kinect.cpp:136-194 | The C skeleton tick goes on exactly when capture, enqueue, pop and every skeleton succeed; FAILED and unreadable skeletons throw; TIMEOUT at any stage tears down |
| SkeletonC.TickQuiescent | sample/c/skeleton/kinect.cpp:136-243 | A C skeleton tick that reaches `draw` leaves nothing outstanding and refills the colour Mat exactly when the frame's capture carried colour |
| SkeletonC.TickSound | sample/c/skeleton/kinect.cpp:136-243 | A C skeleton tick keeps the bookkeeping in agreement with the trace |
| SkeletonC.InferenceSound | sample/c/skeleton/kinect.cpp:197-205 | `update_inference` keeps the bookkeeping in agreement with the trace |
| SkeletonCpp.Inference | sample/cpp/skeleton/kinect.cpp:171-179 | The local capture taken from the body frame is reset after its colour image is taken; the colour handle is set exactly when that capture had colour |
| SkeletonCpp.Bodies | sample/cpp/skeleton/kinect.cpp:182-193 | `update_skeleton` goes on exactly when every body can be read, and otherwise throws |
| SkeletonCpp.Tick | sample/cpp/skeleton/kinect.cpp:128-168 | The C++ skeleton tick goes on exactly when capture, tracker and skeletons succeed, tears down exactly on a capture timeout, and throws otherwise |
| SkeletonCpp.TickClean | sample/cpp/skeleton/kinect.cpp:128-214 | A C++ skeleton tick that starts and reaches `draw` with every handle empty ends with every handle empty; the colour Mat is refilled exactly when there was colour |
| SkeletonCpp.TickSound | sample/cpp/skeleton/kinect.cpp:128-214 | A C++ skeleton tick keeps the bookkeeping in agreement with the trace |
| RecordC.Write | sample/c/record/kinect.cpp:170-178 | `write_frame` is skipped, changing nothing, when the recording or the capture is NULL; otherwise it is a legal call through the capture exactly when the capture is owned |
| RecordC.Tick | sample/c/record/kinect.cpp:156-167 | The C recorder's tick goes on exactly on a successful capture, throws exactly on FAILED, tears down exactly on TIMEOUT |
| RecordC.WrittenOnce | sample/c/record/kinect.cpp:140-143 | The write step adds one write of the capture exactly when the recording is open |
| RecordC.TickWritesOnce | sample/c/record/kinect.cpp:137-153 | While the recording is open every tick that gets a capture writes it exactly once, through an owned capture; a tick without a capture writes nothing |
| RecordC.TickQuiescent | sample/c/record/kinect.cpp:137-238 | A C recorder tick leaves nothing outstanding; each Mat is refilled exactly when the capture carried its plane; a tick without a capture changes nothing |
| RecordC.TickSound | sample/c/record/kinect.cpp:137-238 | A C recorder tick keeps the bookkeeping in agreement with the trace |
| RecordCpp.Tick | sample/cpp/record/kinect.cpp:142-150 | The C++ recorder's tick goes on exactly on a successful capture and throws otherwise |
| RecordCpp.TickWritesOnce | sample/cpp/record/kinect.cpp:123-157 | Every C++ recorder tick that gets a capture writes it exactly once; a tick that throws writes nothing |
| RecordCpp.TickClean | sample/cpp/record/kinect.cpp:123-209 | A C++ recorder tick that starts with every handle empty ends with every handle empty; each Mat is refilled exactly when the capture carried its plane |
| RecordCpp.TickSound | sample/cpp/record/kinect.cpp:123-209 | A C++ recorder tick keeps the bookkeeping in agreement with the trace |
| PlaybackCpp.Frame | sample/cpp/playback/kinect.cpp:151-168 | From the device, a capture that does not succeed throws; from a file, the end of the recording ends the process and a failed read throws; none of these changes the handles |
| PlaybackCpp.Transformation | sample/cpp/playback/kinect.cpp:185-189 | The transformation is skipped, changing nothing, unless colour and depth are both set |
| PlaybackCpp.TransformationPair | sample/cpp/playback/kinect.cpp:185-206 | With colour and depth set, the transformation is legal exactly when both are owned and no transformed handle dangles; it adds exactly the transformed pair, loses nothing, and from a file fills the colour Mat |
| PlaybackCpp.ColorToDepth | sample/cpp/playback/kinect.cpp:191-202 | From a file the colour image is decoded into the colour Mat, and a temporary image is transformed and released in its block; from the device no Mat is filled |
| PlaybackCpp.Decoded | sample/cpp/playback/kinect.cpp:196-198 | Decoding fills the colour Mat, is legal exactly when the colour image is owned, and holds a temporary image of its own |
| PlaybackCpp.DrawTransformation | sample/cpp/playback/kinect.cpp:250-263 | The transformed pair is drawn and reset only when both are set; otherwise nothing changes |
| PlaybackCpp.Tick | sample/cpp/playback/kinect.cpp:132-168 | The playback tick goes on exactly on a successful capture from the device or a successful read before end of file; end of file is the only way it ends the process |
| PlaybackCpp.TransformationBoth | sample/cpp/playback/kinect.cpp:185-206 | With colour and depth present, both modes end with exactly the transformed pair added, and from a file the colour Mat is filled |
| PlaybackCpp.TickClean | sample/cpp/playback/kinect.cpp:132-263 | A playback tick in either mode that starts with every handle empty ends with every handle empty; each Mat is refilled exactly when its image was present, the transformed Mats exactly when both planes were |
| PlaybackCpp.TickSound | sample/cpp/playback/kinect.cpp:132-263 | A playback tick keeps the bookkeeping in agreement with the trace |
| PointCloudCpp.Cloud | sample/cpp/point_cloud/kinect.cpp:170-189 | Without depth neither the mapped depth nor the point cloud is made |
| PointCloudCpp.CloudHeld | sample/cpp/point_cloud/kinect.cpp:170-189 | The mapped depth and the point cloud are made exactly when the capture carried depth |
| PointCloudCpp.Tick | sample/cpp/point_cloud/kinect.cpp:123-153 | The point cloud tick goes on exactly on a successful capture, throws on FAILED and tears down on a timeout, changing nothing when it stops |
| PointCloudCpp.DrawReleases | sample/cpp/point_cloud/kinect.cpp:192-258 | Drawing resets every handle; the raw depth image is released without reaching a Mat |
| PointCloudCpp.TickClean | sample/cpp/point_cloud/kinect.cpp:192-258 | A tick from an empty state ends empty; the colour Mat is refilled exactly when there was colour, the mapped-depth and point Mats exactly when there was depth |
| PointCloudCpp.CloudShownAfter | sample/cpp/point_cloud/kinect.cpp:301-305 | The cloud is shown after a tick exactly when the point Mat and the colour Mat each were filled before or by this tick |
| PointCloudCpp.TickSound | sample/cpp/point_cloud/kinect.cpp:123-258 | A point cloud tick keeps the bookkeeping in agreement with the trace |
| CsLoop.Dispose | sample/csharp/index_map/MainWindow.xaml.cs:115-165 | Leaving the `using` scopes disposes the colour image, the body frame and the capture and touches nothing else |
| CsLoop.DisposeClean | sample/csharp/index_map/MainWindow.xaml.cs:115-165 | From any state holding only those handles, leaving the scopes leaves every handle empty |
| CsLoop.DisposeSound | sample/csharp/index_map/MainWindow.xaml.cs:115-165 | Leaving the scopes keeps the bookkeeping in agreement with the trace |
| CsLoop.Tracking | sample/csharp/skeleton/MainWindow.xaml.cs:102-108 | The head of a C# iteration goes on exactly when capture, enqueue and pop succeed, and throws otherwise |
| CsLoop.TrackingHolds | sample/csharp/index_map/MainWindow.xaml.cs:115-121 | From an empty state the head either holds exactly the capture and the body frame, or has thrown with the capture disposed by its scope |
| CsLoop.TrackingSound | sample/csharp/index_map/MainWindow.xaml.cs:115-121 | The head of an iteration keeps the bookkeeping in agreement with the trace |
| CsLoop.Closing | sample/csharp/index_map/MainWindow.xaml.cs:169-193 | `Window_Closing` leaves every field null |
| CsLoop.KeepMeans | sample/csharp/index_map/MainWindow.xaml.cs:169-193 | The null-guard filter keeps a teardown call exactly when it is one of the calls and its object is still referenced |
| CsLoop.ClosingKeeps | sample/csharp/index_map/MainWindow.xaml.cs:169-193 | `Window_Closing` makes exactly the teardown calls whose object is still referenced, in the fixed order tracker, transformation, device |
| CsLoop.ClosingOrdered | sample/csharp/skeleton/MainWindow.xaml.cs:155-172 | Teardown shuts down and disposes the tracker before the transformation, and both before the cameras stop; no call is repeated and none is on a null field |
| CsLoop.ClosingIdempotent | sample/csharp/index_map/MainWindow.xaml.cs:172-192 | Closing twice is closing once: the second time every field is null and no call is made |
| CsIndexMap.Images | sample/csharp/index_map/MainWindow.xaml.cs:121-164 | The inner block completes exactly when the frame's capture has colour and depth and there is an index map; otherwise it throws, naming the first missing image |
| CsIndexMap.Tick | sample/csharp/index_map/MainWindow.xaml.cs:112-166 | A C# body index iteration completes exactly when the tracker answers and colour, depth and index map are present; otherwise it throws |
| CsIndexMap.ColorHeld | sample/csharp/index_map/MainWindow.xaml.cs:123 | The colour image joins the capture and the body frame exactly when the frame's capture had one |
| CsIndexMap.MappedHeld | sample/csharp/index_map/MainWindow.xaml.cs:130-163 | The mapped index map is painted into its bitmap and disposed, leaving no handle of its own |
| CsIndexMap.ImagesClean | sample/csharp/index_map/MainWindow.xaml.cs:121-164 | Every way the inner block ends leaves every handle empty, and the bitmaps it reached are repainted |
| CsIndexMap.TickClean | sample/csharp/index_map/MainWindow.xaml.cs:115-165 | Every iteration from an empty state ends empty, whether it completes or throws; the colour bitmap is repainted exactly when the tracker answered with colour, the index map bitmap exactly when the iteration completes |
| CsIndexMap.TickSound | sample/csharp/index_map/MainWindow.xaml.cs:112-166 | A C# body index iteration keeps the bookkeeping in agreement with the trace |
| CsSkeleton.Images | sample/csharp/skeleton/MainWindow.xaml.cs:108-150 | The inner block completes exactly when the frame's capture has colour and every skeleton can be read; a missing colour image throws first |
| CsSkeleton.Tick | sample/csharp/skeleton/MainWindow.xaml.cs:99-152 | A C# skeleton iteration completes exactly when the tracker answers, colour is present and every skeleton can be read |
| CsSkeleton.CanvasAfter | sample/csharp/skeleton/MainWindow.xaml.cs:110-117 | An iteration that throws before the colour bitmap is written leaves the canvas as it was |
| CsSkeleton.DrawnAll | sample/csharp/skeleton/MainWindow.xaml.cs:116-149 | When every skeleton can be read, the canvas holds exactly the ellipses of all bodies in order, and nothing of the previous iteration |
| CsSkeleton.DrawnStops | sample/csharp/skeleton/MainWindow.xaml.cs:120-124 | A skeleton that cannot be read stops the drawing; the canvas keeps the ellipses of the bodies before it |
| CsSkeleton.ImagesClean | sample/csharp/skeleton/MainWindow.xaml.cs:108-150 | Every way the inner block ends leaves every handle empty; the colour bitmap is written exactly when there was colour |
| CsSkeleton.TickClean | sample/csharp/skeleton/MainWindow.xaml.cs:102-151 | Every iteration from an empty state ends empty, whether it completes or throws; the colour bitmap is written exactly when the tracker answered with colour |
| CsSkeleton.TickSound | sample/csharp/skeleton/MainWindow.xaml.cs:99-152 | A C# skeleton iteration keeps the bookkeeping in agreement with the trace |
| Layout.TransformationOutputs | sample/c/transformation/kinect.cpp:175-186 | The colour image mapped into the depth camera is BGRA at the depth size; the depth image mapped into the colour camera is 16-bit at the colour size |
| Layout.IndexMapOutputs | sample/c/index_map/kinect.cpp:247-254 | The mapped depth is 16-bit and the mapped index map 8-bit, both at the colour camera's size |
| Layout.OutputsPacked | sample/c/index_map/kinect.cpp:251-254 | Every buffer the C samples allocate has a stride of width times bytes per pixel; the mapped depth buffer is twice the size of the mapped index map buffer |
| Layout.CsBuffers | sample/csharp/index_map/MainWindow.xaml.cs:80-89 | The colour and index map bitmaps share one BGRA layout at the colour size |
| Layout.CsBufferFits | sample/csharp/index_map/MainWindow.xaml.cs:85-89 | The colourised buffer is exactly the bitmap's bytes, with stride width times 4, and any index map of at most width x height labels fits in it at four bytes per label |
| Layout.PixelBytes | sample/csharp/index_map/MainWindow.xaml.cs:144-158 | A label is painted as exactly four bytes |
| Layout.PixelBytesMeans | sample/csharp/index_map/MainWindow.xaml.cs:144-158 | A background label paints opaque black (0, 0, 0, 255); any other label paints the B, G, R of table entry `label % 6` with alpha 128 |
| Layout.PaintedPixel | sample/csharp/index_map/MainWindow.xaml.cs:142-159 | In the painted buffer, bytes 4i to 4i+3 are the pixel of label i, and bytes past the map are untouched |
| Layout.Paint | sample/csharp/index_map/MainWindow.xaml.cs:142-160 | The colouriser loop, run label by label, produces the painted buffer |
| Render.ColorsDistinct | sample/c/index_map/kinect.cpp:87-98 | The C/C++ table holds twelve pairwise different colours, none of them black |
| Render.CsColorsDistinct | sample/csharp/index_map/MainWindow.xaml.cs:92-98 | The C# table holds six pairwise different colours, all with alpha 128 |
| Render.LabelPixel | sample/c/index_map/kinect.cpp:333-341 | A colourised pixel is black or one of the table colours |
| Render.LabelPixelMeans | sample/cpp/index_map/kinect.cpp:279-287 | A pixel stays black exactly when its label is the background; labels that agree modulo 12 share a colour; labels below 12 get their own entry |
| Render.Colorize | sample/c/index_map/kinect.cpp:326-341 | The colourised map has one pixel per label; a pixel is black exactly where no body is, and a body pixel has the colour of its label modulo twelve |
| Render.SkeletonSlot | sample/c/skeleton/kinect.cpp:267 | The C/C++ skeleton colour index `(id - 1) % 12`, with `id - 1` in 32-bit unsigned arithmetic, always lies inside the table |
| Render.SkeletonSlotMeans | sample/c/skeleton/kinect.cpp:267 | Body id 1 gets the first colour and ids twelve apart share a colour; id 0 wraps to 4294967295 and lands on the fourth colour |
| Render.SkeletonSlotsDistinct | sample/cpp/skeleton/kinect.cpp:237 | Ids 1 to 12 get twelve different colours |
| Render.CsSkeletonSlot | sample/csharp/skeleton/MainWindow.xaml.cs:140 | The C# skeleton colour index `id % 6` always lies inside the table |
| Render.CsSlotShifted | sample/csharp/skeleton/MainWindow.xaml.cs:140 | For ids from 1, the C# index is the C/C++ index plus one, modulo six: the C# window has no -1 offset |
| Render.Thickness | sample/c/skeleton/kinect.cpp:265 | A marker is drawn either filled (-1) or as a 1-pixel outline |
| Render.ThicknessMeans | sample/cpp/skeleton/kinect.cpp:235 | A marker is filled exactly when the joint's confidence is medium or high |
| Render.CsFill | sample/csharp/skeleton/MainWindow.xaml.cs:141 | A C# ellipse is filled, if at all, with its body's table colour |
| Render.FillAgrees | sample/csharp/skeleton/MainWindow.xaml.cs:141 | A C# ellipse is filled exactly when the C/C++ marker for the same joint is |
| Render.Saturate | sample/c/depth/kinect.cpp:172 | `saturate_cast<uchar>` is 0 at or below 0, 255 at or above 255, and the value itself in between |
| Render.SaturateMonotone | sample/cpp/depth/kinect.cpp:152 | Saturation never reverses the order of two values |
| Render.DepthShadeMeans | sample/c/depth/kinect.cpp:172 | Whatever the rounding, the depth shade is 255 at 0 mm, 0 from 5000 mm on, and never brighter for a farther point |
| Render.InfraredShadeMeans | sample/c/infrared/kinect.cpp:172 | Whatever the rounding, the infrared shade is 0 at 0, 255 from 510 on, and never darker for a brighter input |
| Render.BlendAgrees | sample/cpp/index_map/kinect.cpp:302-322 | Nothing is blended when the colour Mat is empty; the configured BGRA colour Mat reaches `addWeighted` with the same three channels as the `Vec3b` overlay, and only a 3- or 4-channel Mat would |
| Markers.UpdateSkeleton | sample/c/skeleton/kinect.cpp:208-222 | `bodies` is rebuilt with one entry per body of the frame, entry i holding body i's id and skeleton; otherwise the call throws at the first skeleton that cannot be read |
| Markers.Circles | sample/c/skeleton/kinect.cpp:253-270 | A body gets one circle per joint with a valid projection, each in the body's table colour and either filled or outlined |
| Markers.AllVisibleDrawn | sample/c/skeleton/kinect.cpp:256-268 | When every projection is valid, circle k is at joint k's position and is filled exactly when that joint's confidence is medium or high |
| Markers.NoneVisible | sample/c/skeleton/kinect.cpp:260-263 | A body with no valid projection draws nothing |
| Markers.AllCircles | sample/cpp/skeleton/kinect.cpp:224-240 | `show_skeleton` draws, body after body, as many circles as there are joints with a valid projection |
| Markers.Ellipses | sample/csharp/skeleton/MainWindow.xaml.cs:126-148 | A C# body gets one ellipse per joint with a projection, stroked in the body's table colour and filled, if at all, in the same colour |
| Markers.SameJointsMarked | sample/csharp/skeleton/MainWindow.xaml.cs:131-147 | The C# window marks the same joints as the C/C++ samples: circle k's centre is ellipse k's unrounded centre (corner plus 5) truncated toward zero, so the two differ by less than a pixel, and the ellipse is filled exactly when the circle is |
| Markers.WholeProjectionsAlign | sample/c/skeleton/kinect.cpp:266-267 | When every valid projection falls on whole pixels, ellipse k's corner is exactly 5 up and left of circle k's centre |
| Markers.Truncate | sample/cpp/skeleton/kinect.cpp:236 | `static_cast<int32_t>` of a projection coordinate rounds toward zero: the result is less than one away and never further from zero |
| Markers.AllEllipses | sample/csharp/skeleton/MainWindow.xaml.cs:116-149 | The canvas after an iteration holds as many ellipses as there are joints with a projection, over all bodies |
| RecordName.Decimal | sample/c/record/kinect.cpp:79 | The year is written as decimal digits, a single digit exactly below 10 |
| RecordName.ValueOfDecimal | sample/c/record/kinect.cpp:79 | Reading back the written digits gives the number |
| RecordName.Pad2 | sample/c/record/kinect.cpp:80-84 | A zero-padded field has at least two digits, and exactly two below 100 |
| RecordName.Pad2Digits | sample/cpp/record/kinect.cpp:65-69 | Below 100 the two padded characters spell the number |
| RecordName.Name | sample/c/record/kinect.cpp:78-87 | The name is `./`, the year, 17 more characters of `_MM_DD_hhmmss`, and `.mkv` |
| RecordName.ParseName | sample/cpp/record/kinect.cpp:64-72 | Every `tm` field survives the round trip through the file name |
| RecordName.NameInjective | sample/c/record/kinect.cpp:73-87 | Two different start times never give the same file name |
| Samples.StepProceeds | sample/c/skeleton/kinect.cpp:136-155 | A tick reaches `draw` exactly when the SDK's answers let it: capture alone, capture and tracker, or capture, tracker and skeletons, depending on the sample |
| Samples.Ending | sample/cpp/playback/kinect.cpp:151-168 | A tick that does not reach `draw` stops the run by an exception, a teardown or the end of the recording, exactly as the tick ended |
| Samples.FirstHalt | sample/c/index_map/kinect.cpp:121-141 | The first poll after which the loop stops: no earlier poll halts, and the one it names does |
| Samples.LoopStopsAtFirstHalt | sample/cpp/point_cloud/kinect.cpp:94-120 | For any tick that reaches `draw` exactly when the sample's does, the loop runs up to and including the first halting poll and stops the way that poll says |
| Samples.RunStopsAtFirstHalt | sample/cpp/point_cloud/kinect.cpp:94-120 | The loop runs exactly up to and including the first poll after which it stops. It quits exactly when that tick reached `draw` with key `'q'`. The viewer closing counts only when the key was not `'q'`. A tick that does not reach `draw` ends the run with its own outcome |
| Samples.QuitsAtFirstQ | sample/c/depth/kinect.cpp:76-96 | When every tick reaches `draw` and no viewer can close, the run quits exactly at the first `'q'`, after that many ticks |
| Samples.StepKeeps | sample/cpp/index_map/kinect.cpp:103-123 | Every sample's tick that reaches `draw` gives back the state it keeps between ticks; for the C transformation and body-index-map viewers this is their corrected tick |
| Samples.LoopKeeps | sample/c/skeleton/kinect.cpp:113-133 | A loop keeps any invariant that every tick reaching `draw` keeps, whenever it stops on `'q'`, on the viewer, or with polls to come |
| Samples.RunKeeps | sample/c/infrared/kinect.cpp:76-109 | A run from the boundary state that stops on `'q'`, on the viewer closing or with polls to come is at the boundary again: every tick gave back the handles it took. For the C transformation and body-index-map viewers this holds of their corrected ticks only |
| Samples.AsWrittenRunLeavesDepth | sample/c/index_map/kinect.cpp:197-205 | From the boundary, one poll that tracks a capture carrying colour, depth and an index map and reads `'q'`: the corrected run quits at the boundary, while the run as written quits with the depth image still outstanding |
| Samples.AsWrittenRunMisuses | sample/c/transformation/kinect.cpp:231-244 | From the boundary, a poll with both planes and then one missing a plane that reads `'q'`: the run as written quits having used a released image |
| Session.StartupThrows | sample/cpp/playback/kinect.cpp:29-84 | Startup throws exactly when a device is needed and none is installed, the tracker cannot be created, or the playback path is not a file; the device is opened exactly when needed and present; no device means the count is the only call made |
| Session.SensorCalls | sample/c/index_map/kinect.cpp:49-74 | With a device installed, the sensor is counted, opened and started before calibration and transformation, and nothing throws |
| Session.StartupScript | sample/c/skeleton/kinect.cpp:32-94 | A startup that does not throw makes exactly the sample's calls, in order |
| Session.HeaderOnce | sample/c/record/kinect.cpp:39-92 | The recorders write the header once, right after creating the recording, and create it only after the cameras start; no other sample writes a header |
| Session.FinalizeReverses | sample/c/index_map/kinect.cpp:102-118 | `finalize` closes exactly what `initialize` opened, the last opened first. The C++ body index viewer leaves the transformation to its destructor. The point cloud viewer with viz closes the viewer last |
| Session.CamerasStopBeforeClose | sample/cpp/point_cloud/kinect.cpp:73-91 | Every sample that opened the device stops the cameras immediately before closing it; playback of a file touches neither |
| Session.RecordFinalizeOrder | sample/c/record/kinect.cpp:95-111 | The recorders flush first, then close the recording, then stop the cameras, then close the device |
| Session.PlaybackChoice | sample/cpp/playback/kinect.cpp:87-106 | Playback makes the same live-or-file choice at startup and shutdown; the transformation is destroyed first either way |
| Session.LifeCloses | sample/c/index_map/kinect.cpp:17-36 | `finalize` runs exactly when startup succeeded and the loop stopped by the quit key, the viewer, an exception or a teardown. When it runs, everything opened is closed in reverse order (except the two samples above). Otherwise nothing is closed |

## Left out

- SDK internals are opaque. This covers device configuration, calibration, the tracker's inference and the geometry of the `k4a_transformation_*` calls; a call is represented only by the handle it returns or the status it reports.
- The GUI work is not modelled: `imshow`, `cvtColor`, the viz, Open3D and WPF viewers. `cv::waitKey` is only the key field of a poll; the viz `wasStopped` is only the viewer field.
- The alpha blend (`addWeighted` with weights 0.7 and 0.3) is floating point; only the channel count blended is modelled (`Render.BlendAgrees`).
- Markers.Truncate: a projection outside the `int32_t` range, where the C++ cast is undefined, is not modelled; real numbers stand for the `float` coordinates, without their rounding.
- Render.DepthShadeMeans: the exact float rounding of `convertTo` is left open as a parameter, and only properties that hold for every rounding are stated.
- Render.InfraredShadeMeans: the same; the infrared map is stated only up to rounding.
- The C# depth and infrared windows' float-to-byte casts, the C# colour and transformation windows, and the Python samples are not modelled: they are UI plumbing around the SDK.
- The wall-clock reading behind the recording name is an input; `RecordName.Name` takes the `tm` fields.
- The `main.cpp` files are not modelled: each catches the exception, prints it and returns 0.
- SDK failures of `k4a_device_open`, `start_cameras`, `get_calibration`, `k4a_image_create`, the transformation calls, `k4a_record_create`, `write_header`, `write_capture` and `flush` are not modelled. Each would throw through `K4A_RESULT_CHECK` or the C++ wrapper; startup failures are modelled for the device count, the tracker and the playback path only.
- The `k4a_calibration_3d_to_2d` call in the C skeleton sample cannot fail in the model; only the per-joint validity of the projection is modelled.
- PlaybackCpp.Frame: the `k4a::playback` wrapper header is not part of this model. Its `get_next_capture` is taken to return `false` at end of file and to throw on a failed read; a failed read is the `ReadFailed` throw.
- Pipeline.TrackCpp: the C++ tracker wrapper's `false` return on a timed-out enqueue or pop is modelled as a throw. With the default infinite wait it cannot time out.
- Execution after `this->~kinect()` inside `update` is not modelled; such a tick ends the run as `TornDown`.
- The RAII destructors of the C++ members that run when a constructor throws are not modelled. `Session.Life` records no `finalize` for them.
- `Samples.Run` runs over a finite prefix of polls. `OutOfPolls` stands for a loop still running when the prefix ends.
- Samples.Step: the C transformation and body-index-map viewers run their corrected ticks (`TransformationC.TickFixed`, `IndexMapC.TickFixed`), so `Samples.StepKeeps` and `Samples.RunKeeps` do not describe those two programs as written. As written, their runs leave a handle outstanding or misuse a released one; `Samples.AsWrittenRunLeavesDepth` and `Samples.AsWrittenRunMisuses` show this.
- RecordC: `Samples.Step` calls the C recorder's tick with the recording open. A recording that failed to open throws during startup, so no tick runs without one.
- CsLoop.Tracking: the `async` loop of `Window_Loaded`, `Task.Run`, and a `Window_Closing` that races with it are not modelled. One iteration is modelled.
- Layout.Paint: `Parallel.For` is modelled as a sequential loop, since its iterations write disjoint bytes. The requirement that the map fits the buffer is how the window sizes the buffer; an index map longer than width x height, which would throw in C#, is not modelled.
- CsSkeleton.Tick: `frame.Capture`, which the C# skeleton window reads its colour image through, creates a capture object that is never disposed. It is left to the garbage collector and is not modelled, so `CsSkeleton.ImagesClean` and `CsSkeleton.TickClean` speak only of the handles the window disposes.
- CsIndexMap.Tick: the images the C# window creates without disposing them are left to the garbage collector and are not modelled. There are four: `frame.Capture`, `frame.Capture.Depth`, `frame.BodyIndexMap`, and the mapped depth returned alongside the mapped index map. The mapped index map itself is disposed and is modelled.
- The C# skeleton window has no transformation field; its `Window_Closing` is `CsLoop.Closing` with that field null.

## Findings

| source | as written | input that shows it | evidently intended | confidence | as-written member | corrected member |
|---|---|---|---|---|---|---|
| sample/c/index_map/kinect.cpp:197-205 | `update_depth` takes a depth image reference that neither `update` nor `draw` ever releases | two ticks whose captures carry colour, depth and a body index map: the second overwrites the pointer and the first depth image is leaked | release the depth image at the end of `update`, as the capture and body frame are | high, not executed | IndexMapC.DepthLeakFromStart | IndexMapC.TickFixedReady |
| sample/c/index_map/kinect.cpp:240-248 | `update_transformation` checks depth and the index map, then reads the colour image's size without checking it | a first capture with depth and a body index map but no colour image: the width is read through NULL. Latent: line 65 sets `synchronized_images_only`, so a device capture always carries colour; the read is reachable only with another configuration | skip the transformation unless the colour image is set too | low, not executed; latent under the shipped configuration | IndexMapC.NullColorFromStart | IndexMapC.TickFixedReady |
| sample/c/index_map/kinect.cpp:301-313 | `draw_transformation` releases the mapped images but leaves the pointers set | a full tick, then a tick whose body frame has no index map: the transformation is skipped and the released mapped index map is drawn again. Latent: nothing in the sample shows the tracker returning a body frame without an index map | clear each pointer after its release | low, not executed; latent unless the tracker omits the index map | IndexMapC.StaleIndexMapFromStart | IndexMapC.TickFixedReady |
| sample/c/transformation/kinect.cpp:231-244 | `draw_transformation` releases both transformed images but leaves the pointers set | a tick with colour and depth, then one without depth: the transformation is skipped and the released images are converted again. Latent: line 60 sets `synchronized_images_only`, so a device capture always carries both images; the reuse is reachable only with another configuration | clear each pointer after its release | low, not executed; latent under the shipped configuration | TransformationC.StaleTransformedImages | TransformationC.TickFixedReady |
